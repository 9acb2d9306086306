/** The bytes a connection delivers are the frames its handlers get, over whole runs of the switchboard. */
module Stream {
  import opened Sequences
  import opened Wire
  import opened Board
  import opened Invariant
  import opened Answer
  import opened Departure
  import opened Handlers
  import opened Steps
  import opened Framing
  import opened Steadiness
  import opened Turning

  // ---------- buffers and frames ----------

  function Buf(s: Board, c: Id): seq<byte>
    requires c in s.clients && s.clients[c].conn.Receiving? && LiveInput(s, c)
  {
    match s.clients[c].conn.input
    case Scratch(b) => b
    case DataOf(t) => s.calls[t].data
  }

  predicate Filling(s: Board, c: Id) {
    c in s.clients && s.clients[c].conn.Receiving? && LiveInput(s, c) && s.clients[c].conn.used <= |Buf(s, c)|
  }

  /** The part of the buffer of `c` that has been read. */
  function Filled(s: Board, c: Id): seq<byte> {
    if Filling(s, c) then Buf(s, c)[..s.clients[c].conn.used] else []
  }

  /** The bytes that `e` reads from `c`. */
  function Chunk(e: Event, c: Id): seq<byte> {
    if e.Read? && e.c == c then e.chunk else []
  }

  /** The frame that `e` completes on the connection of `c`, if any: its handler, and the bytes it is called with. */
  function FrameOf(s: Board, e: Event, c: Id): seq<Framed> {
    if e.Read? && e.c == c && Filling(s, c) && s.clients[c].conn.used + |e.chunk| == |Buf(s, c)| then
      [Framed(s.clients[c].conn.handler, Splice(Buf(s, c), s.clients[c].conn.used, e.chunk))]
    else []
  }

  lemma SpliceFills(b: seq<byte>, used: nat, chunk: seq<byte>)
    requires used + |chunk| <= |b|
    ensures Splice(b, used, chunk)[..used + |chunk|] == b[..used] + chunk
    ensures used + |chunk| == |b| ==> Splice(b, used, chunk) == b[..used] + chunk
  {
  }

  // ---------- the connection a read comes from ----------

  /** The read leaves the buffer of `c` to be filled further, and does nothing else. */
  ghost predicate Fills(s: Board, r: Board, c: Id, chunk: seq<byte>)
    requires Filling(s, c)
  {
    && Onward(s, r, c, Own(s, c)) && r.log == s.log && r.services == s.services && r.calls.Keys == s.calls.Keys
    && Filling(r, c) && Filled(r, c) == Filled(s, c) + chunk
    && r.clients[c].conn.handler == s.clients[c].conn.handler && r.clients[c].adverts == s.clients[c].adverts
    && (s.clients[c].conn.input.DataOf? ==> r.clients[c].conn.input == s.clients[c].conn.input)
    && (forall t :: t in s.calls ==> r.calls[t] == s.calls[t].(data := r.calls[t].data) && |r.calls[t].data| == |s.calls[t].data|)
  }

  lemma ReadScratchFills(fx: Fixes, s: Board, c: Id, chunk: seq<byte>, env: Env)
    requires Filling(s, c) && s.clients[c].conn.input.Scratch? && ReadScratch(fx, s, c, chunk, env).Ok?
    requires s.clients[c].conn.used + |chunk| < |Buf(s, c)|
    ensures Fills(s, ReadScratch(fx, s, c, chunk, env).board, c, chunk)
  {
    hide RunHandler;
    var Receiving(h, input, used) := s.clients[c].conn;
    SpliceFills(input.bytes, used, chunk);
    var r := ReadScratch(fx, s, c, chunk, env).board;
    assert r == PutClient(s, c, r.clients[c]);
    assert OthersOnward(s, r, c);
  }

  lemma ReadDataFills(fx: Fixes, s: Board, c: Id, chunk: seq<byte>)
    requires Filling(s, c) && s.clients[c].conn.input.DataOf? && ReadData(fx, s, c, chunk).Ok?
    requires s.clients[c].conn.used + |chunk| < |Buf(s, c)|
    ensures Fills(s, ReadData(fx, s, c, chunk).board, c, chunk)
  {
    hide SendToWorker, Part2, Fills, Splice;
    var Receiving(h, input, used) := s.clients[c].conn;
    var b := Splice(s.calls[input.call].data, used, chunk);
    SpliceFills(s.calls[input.call].data, used, chunk);
    DataFilled(s, c, input.call, b, chunk);
  }

  lemma DataFilled(s: Board, c: Id, t: Id, b: seq<byte>, chunk: seq<byte>)
    requires Filling(s, c) && s.clients[c].conn.input == DataOf(t) && t in s.calls && |b| == |s.calls[t].data|
    requires var used := s.clients[c].conn.used; used + |chunk| < |b| && b[..used + |chunk|] == s.calls[t].data[..used] + chunk
    ensures var cl := s.clients[c]; var r := PutClient(PutCall(s, t, s.calls[t].(data := b)), c, cl.(conn := cl.conn.(used := cl.conn.used + |chunk|)));
      Fills(s, r, c, chunk)
  {
    var cl := s.clients[c];
    var cl' := cl.(conn := cl.conn.(used := cl.conn.used + |chunk|));
    DataOnward(s, c, t, b, cl');
    var r := PutClient(PutCall(s, t, s.calls[t].(data := b)), c, cl');
    MoreFilled(s, r, c, t, chunk);
    hide Own, Onward, Filled, Filling;
  }

  lemma MoreFilled(s: Board, r: Board, c: Id, t: Id, chunk: seq<byte>)
    requires Filling(s, c) && s.clients[c].conn.input == DataOf(t) && t in s.calls && t in r.calls && c in r.clients
    requires var used := s.clients[c].conn.used + |chunk|; r.clients[c].conn == s.clients[c].conn.(used := used) && used <= |r.calls[t].data|
    requires r.calls[t].data[..s.clients[c].conn.used + |chunk|] == s.calls[t].data[..s.clients[c].conn.used] + chunk
    ensures Filling(r, c) && Filled(r, c) == Filled(s, c) + chunk
  {
  }

  lemma DataOnward(s: Board, c: Id, t: Id, b: seq<byte>, cl: Client)
    requires c in s.clients && s.clients[c].conn.Receiving? && s.clients[c].conn.input == DataOf(t) && t in s.calls
    ensures Onward(s, PutClient(PutCall(s, t, s.calls[t].(data := b)), c, cl), c, Own(s, c))
  {
    var r := PutClient(PutCall(s, t, s.calls[t].(data := b)), c, cl);
    assert t in Own(s, c);
    hide Own;
    assert OthersOnward(s, r, c) && CallsOnward(s, r, Own(s, c)) && NamesOnward(s, r);
  }

  /** Unarming first makes no difference to what a handler with a buffer of the connection's own does. */
  lemma UnarmTurns(s: Board, r: Board, c: Id, f: Framed)
    requires c in s.clients && !f.handler.CallBody? && !f.handler.ReturnBody? && Turns(Unarm(s, c), r, c, f)
    ensures Turns(s, r, c, f)
  {
    hide CutName, ToLong, CallHeader, ReturnHeader;
    var s0 := Unarm(s, c);
    assert Own(s0, c) <= Own(s, c);
    assert OthersOnward(s, r, c) && CallsOnward(s, r, Own(s, c)) && NamesOnward(s, r);
    forall i | |s.log| <= i < |r.log| ensures EntryFrom(s, c, f, r.log[i]) {
      assert EntryFrom(s0, c, f, r.log[i]);
    }
  }

  lemma ReadScratchTurns(fx: Fixes, s: Board, c: Id, chunk: seq<byte>, env: Env)
    requires Inv(s) && c in s.clients && s.clients[c].conn.Receiving? && s.clients[c].conn.input.Scratch?
    requires s.clients[c].conn.used + |chunk| == |s.clients[c].conn.input.bytes| && ReadScratch(fx, s, c, chunk, env).Ok?
    ensures var conn := s.clients[c].conn;
      Turns(s, ReadScratch(fx, s, c, chunk, env).board, c, Framed(conn.handler, Splice(conn.input.bytes, conn.used, chunk)))
  {
    hide InvX, Turns, RunHandler;
    InvFits(s, c);
    InvIndexed(s, TIGHT);
    var Receiving(h, input, used) := s.clients[c].conn;
    var b := Splice(input.bytes, used, chunk);
    if s.clients[c].wait4.For? { InvWaiter(s, c, TIGHT); }
    var s0 := Unarm(s, c);
    RunHandlerTurns(fx, s0, c, h, b, env);
    UnarmTurns(s, RunHandler(fx, s0, c, h, b, env).board, c, Framed(h, b));
  }

  lemma BodyTurns(s: Board, c: Id, t: Id, b: seq<byte>, e: Entry)
    requires c in s.clients && s.clients[c].conn.Receiving? && s.clients[c].conn.input == DataOf(t) && t in s.calls
    requires EntryFrom(s, c, Framed(s.clients[c].conn.handler, b), e) && !e.Abandoned?
    ensures var m := Say(Unarm(PutCall(s, t, s.calls[t].(data := b)), c), e);
      Turns(s, m, c, Framed(s.clients[c].conn.handler, b)) && m.services == s.services && c in m.clients && m.clients[c].conn == Running
  {
    hide EntryFrom;
    var m := Say(Unarm(PutCall(s, t, s.calls[t].(data := b)), c), e);
    assert t in Own(s, c);
    assert OthersOnward(s, m, c) && CallsOnward(s, m, Own(s, c)) && NamesOnward(s, m);
  }

  lemma ReadDataTurns(fx: Fixes, s: Board, c: Id, chunk: seq<byte>)
    requires Inv(s) && Filling(s, c) && s.clients[c].conn.input.DataOf? && ReadData(fx, s, c, chunk).Ok?
    requires s.clients[c].conn.used + |chunk| == |Buf(s, c)|
    ensures var conn := s.clients[c].conn;
      Turns(s, ReadData(fx, s, c, chunk).board, c, Framed(conn.handler, Splice(Buf(s, c), conn.used, chunk)))
  {
    hide InvX, Turns, SendToWorker, Part2, Steady;
    InvFits(s, c);
    var Receiving(h, input, used) := s.clients[c].conn;
    var t := input.call;
    var b := Splice(s.calls[t].data, used, chunk);
    var s1 := Unarm(PutCall(s, t, s.calls[t].(data := b)), c);
    if h.CallBody? {
      var e := Submitted(c, t, b);
      BodyTurns(s, c, t, b, e);
      SendToWorkerSteady(fx, Say(s1, e), c);
      TurnsThen(s, Say(s1, e), ReadData(fx, s, c, chunk).board, c, Framed(h, b));
    } else {
      var e := Returned(c, t, s.calls[t].rval, s.calls[t].rcode, b);
      BodyTurns(s, c, t, b, e);
      Part2Steady(Say(s1, e), c);
      TurnsThen(s, Say(s1, e), ReadData(fx, s, c, chunk).board, c, Framed(h, b));
    }
  }

  /** A read from an armed connection fills its buffer further, or completes a frame that is handled. */
  lemma ReadEffect(fx: Fixes, s: Board, c: Id, chunk: seq<byte>, env: Env)
    requires Inv(s) && Possible(s, Read(c, chunk, env)) && Allowed(fx, s, Read(c, chunk, env)) && s.clients[c].conn.Receiving?
    ensures Step(fx, s, Read(c, chunk, env)).Ok? && Filling(s, c)
    ensures var r, fs := Step(fx, s, Read(c, chunk, env)).board, FrameOf(s, Read(c, chunk, env), c);
      if fs == [] then Fills(s, r, c, chunk)
      else |fs| == 1 && fs[0].payload == Filled(s, c) + chunk && Turns(s, r, c, fs[0])
  {
    hide Inv, Turns, Fills, ReadScratch, ReadData, Walks, GoodBatches, HandlerOk, Splice;
    StepKeeps(fx, s, Read(c, chunk, env));
    InvFits(s, c);
    var conn := s.clients[c].conn;
    SpliceFills(Buf(s, c), conn.used, chunk);
    if conn.used + |chunk| < |Buf(s, c)| {
      if conn.input.Scratch? { ReadScratchFills(fx, s, c, chunk, env); } else { ReadDataFills(fx, s, c, chunk); }
    } else {
      if conn.input.Scratch? { ReadScratchTurns(fx, s, c, chunk, env); } else { ReadDataTurns(fx, s, c, chunk); }
    }
  }

  /** An end of file, or bytes nobody asked for. */
  lemma LeaveEffect(fx: Fixes, s: Board, e: Event)
    requires Inv(s) && Possible(s, e) && Allowed(fx, s, e)
    requires e.Leave? || (e.Read? && !s.clients[e.c].conn.Receiving?)
    ensures Step(fx, s, e).Ok? && Steady(Noted(s, e.c), Step(fx, s, e).board, Own(s, e.c)) && e.c !in Step(fx, s, e).board.clients
    ensures FrameOf(s, e, e.c) == []
  {
    hide Inv, Steady, DelClient, Walks, GoodBatches, LeaveOk;
    StepKeeps(fx, s, e);
    OwnsExecuted(s, e.c);
    var order := if e.Leave? then e.order else e.env.order;
    DepartureKeeps(fx, s, e.c, order);
    DelClientSteady(fx, s, e.c, order, Own(s, e.c));
  }

  lemma ArriveEffect(s: Board)
    ensures Connect(s).Ok? && Onward(s, Connect(s).board, s.next, {}) && Connect(s).board.log == s.log
    ensures s.next in Connect(s).board.clients && Connect(s).board.clients[s.next].conn == NEXT
    ensures Connect(s).board.clients[s.next].adverts == map[]
  {
    var r := Connect(s).board;
    assert OthersOnward(s, r, s.next);
  }

  /** Every allowed event leaves the other connections' buffers alone. */
  lemma EveryEffect(fx: Fixes, s: Board, e: Event)
    requires Inv(s) && Possible(s, e) && Allowed(fx, s, e)
    ensures Step(fx, s, e).Ok? && Onward(s, Step(fx, s, e).board, Actor(s, e), Own(s, Actor(s, e)))
  {
    hide Inv, Steady, DelClient, Walks, GoodBatches, ReadScratch, ReadData, Connect, HandlerOk, LeaveOk, Onward, Own, OthersOnward;
    match e
    case Arrive =>
      ArriveEffect(s);
      OnwardMore(s, Connect(s).board, s.next, {}, Own(s, s.next));
    case Leave(c, _) =>
      LeaveEffect(fx, s, e);
      NotedOnward(s, Step(fx, s, e).board, c, Own(s, c));
    case Read(c, chunk, env) =>
      if s.clients[c].conn.Receiving? {
        ReadEffect(fx, s, c, chunk, env);
      } else {
        LeaveEffect(fx, s, e);
        NotedOnward(s, Step(fx, s, e).board, c, Own(s, c));
      }
  }

  /** The client an event comes from; for a new connection, the number it gets. */
  function Actor(s: Board, e: Event): Id {
    match e
    case Arrive => s.next
    case Leave(c, _) => c
    case Read(c, _, _) => c
  }

  lemma OnwardMore(s: Board, r: Board, c: Id, x: set<Id>, y: set<Id>)
    requires Onward(s, r, c, x) && x <= y
    ensures Onward(s, r, c, y)
  {
  }

  // ---------- the other connections ----------

  predicate ReadsInto(cl: Client, t: Id) {
    cl.conn.Receiving? && cl.conn.input == DataOf(t)
  }

  /** Whoever receives into a live call's buffer is its submitter or its executor. */
  lemma ReadsAsExecutor(s: Board, d: Id, t: Id)
    requires Inv(s) && d in s.clients && ReadsInto(s.clients[d], t) && t in s.calls
    ensures s.clients[d].conn.handler == CallBody ==> s.calls[t].client == d && s.calls[t].executor.None?
    ensures s.clients[d].conn.handler != CallBody ==> s.clients[d].conn.handler == ReturnBody && s.calls[t].executor == Some(d)
  {
    hide InvX, Distinct;
    InvFits(s, d);
    InvOwned(s, TIGHT);
    if s.clients[d].conn.handler == CallBody {
      assert t in s.clients[d].requests;
    } else {
      InvWaiter(s, d, TIGHT);
    }
  }

  /** Nobody else writes to the buffer that `d` is filling. */
  lemma NotOwned(s: Board, c: Id, d: Id, t: Id)
    requires Inv(s) && c != d && d in s.clients && ReadsInto(s.clients[d], t) && t in s.calls
    ensures t !in Own(s, c)
  {
    hide Inv;
    ReadsAsExecutor(s, d, t);
    if c in s.clients && ReadsInto(s.clients[c], t) { ReadsAsExecutor(s, c, t); }
  }

  /** Another client's event leaves the filled part of `d`'s buffer as it is, and what it is armed for. */
  lemma OtherKeeps(s: Board, r: Board, c: Id, d: Id)
    requires Inv(s) && Onward(s, r, c, Own(s, c)) && d != c && d in r.clients && !DeadInput(r, d)
    ensures Filled(r, d) == Filled(s, d)
    ensures d in s.clients && s.clients[d].conn.Receiving? ==> !DeadInput(s, d) && r.clients[d].conn == s.clients[d].conn
    ensures !(d in s.clients && s.clients[d].conn.Receiving?) ==> r.clients[d].conn.Receiving? ==> r.clients[d].conn == NEXT
    ensures d in s.clients && s.clients[d].conn.Receiving? && s.clients[d].conn.input.DataOf? ==>
      var t := s.clients[d].conn.input.call; t in s.calls && t in r.calls && SameData(s.calls[t], r.calls[t])
  {
    hide Inv, Own;
    if d in s.clients && s.clients[d].conn.Receiving? && s.clients[d].conn.input.DataOf? {
      var t := s.clients[d].conn.input.call;
      InvFits(s, d);
      assert t in r.calls && t < s.next;
      NotOwned(s, c, d, t);
    }
  }

  // ---------- one event ----------

  /** What `c` had read, and what it reads now, is the frame that is handled now and what is left in the buffer. */
  lemma StepStream(fx: Fixes, s: Board, e: Event, c: Id)
    requires Inv(s) && Possible(s, e) && Allowed(fx, s, e)
    ensures Step(fx, s, e).Ok?
    ensures var r := Step(fx, s, e).board;
      c in r.clients && !DeadInput(r, c) ==> Filled(s, c) + Chunk(e, c) == Payloads(FrameOf(s, e, c)) + Filled(r, c)
    ensures FrameOf(s, e, c) != [] ==> Payloads(FrameOf(s, e, c)) == Filled(s, c) + Chunk(e, c)
  {
    hide Inv, Step, Possible, Allowed, Own, Filled, FrameOf, EntryFrom, CallHeader, ReturnHeader, Steady;
    EveryEffect(fx, s, e);
    var r := Step(fx, s, e).board;
    if c != Actor(s, e) {
      NoFrame(s, e, c);
      if c in r.clients && !DeadInput(r, c) { OtherKeeps(s, r, Actor(s, e), c); }
    } else {
      ActorStream(fx, s, e, c);
    }
  }

  lemma NoFrame(s: Board, e: Event, c: Id)
    requires !(e.Read? && e.c == c)
    ensures FrameOf(s, e, c) == [] && Chunk(e, c) == []
  {
  }

  lemma OneFrame(f: Framed)
    ensures Payloads([f]) == f.payload
  {
    assert [f][..0] == [];
    assert Payloads([]) == [];
  }

  lemma ActorStream(fx: Fixes, s: Board, e: Event, c: Id)
    requires Inv(s) && Possible(s, e) && Allowed(fx, s, e) && c == Actor(s, e)
    ensures Step(fx, s, e).Ok?
    ensures var r := Step(fx, s, e).board;
      c in r.clients && !DeadInput(r, c) ==> Filled(s, c) + Chunk(e, c) == Payloads(FrameOf(s, e, c)) + Filled(r, c)
    ensures FrameOf(s, e, c) != [] ==> Payloads(FrameOf(s, e, c)) == Filled(s, c) + Chunk(e, c)
  {
    hide Inv, Walks, GoodBatches, DelClient, ReadScratch, ReadData, HandlerOk, LeaveOk, EntriesFrom, CallHeader, ReturnHeader, Steady, Onward, FrameOf, Connect;
    match e
    case Arrive =>
      ArriveEffect(s);
      NoFrame(s, e, c);
      assert s.next !in s.clients by { InvNextFree(s); }
    case Leave(_, _) =>
      LeaveEffect(fx, s, e);
    case Read(_, chunk, env) =>
      if s.clients[c].conn.Receiving? {
        ReadEffect(fx, s, c, chunk, env);
        var fs := FrameOf(s, e, c);
        if fs != [] {
          assert fs == [fs[0]];
          OneFrame(fs[0]);
        }
      } else {
        LeaveEffect(fx, s, e);
      }
  }

  lemma InvNextFree(s: Board)
    requires Inv(s)
    ensures s.next !in s.clients && s.next !in s.calls && s.next !in s.services
  {
    hide InvX;
    InvIndexed(s, TIGHT);
  }
}
