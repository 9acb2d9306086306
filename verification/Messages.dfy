/** Every body the switchboard acts on is part of a message that its connection delivered. */
module Messages {
  import opened Sequences
  import opened Wire
  import opened Board
  import opened Invariant
  import opened Departure
  import opened Handlers
  import opened Steps
  import opened History
  import opened Framing
  import opened Steadiness
  import opened Turning
  import opened Runs
  import opened Stream
  import opened Traces
  import opened Codec

  /** The handler is called with exactly the bytes of the frame. */
  lemma FrameIsHandled(fx: Fixes, s: Board, c: Id, chunk: seq<byte>, env: Env)
    requires Inv(s) && Possible(s, Read(c, chunk, env)) && Allowed(fx, s, Read(c, chunk, env))
    requires FrameOf(s, Read(c, chunk, env), c) != []
    ensures var f := FrameOf(s, Read(c, chunk, env), c)[0];
      var t := s.clients[c].conn.input;
      match f.handler
      case CallBody => t.DataOf? && t.call in s.calls && Step(fx, s, Read(c, chunk, env)) ==
        SendToWorker(fx, Say(Unarm(PutCall(s, t.call, s.calls[t.call].(data := f.payload)), c), Submitted(c, t.call, f.payload)), c)
      case ReturnBody => t.DataOf? && t.call in s.calls && Step(fx, s, Read(c, chunk, env)) ==
        Part2(Say(Unarm(PutCall(s, t.call, s.calls[t.call].(data := f.payload)), c),
                  Returned(c, t.call, s.calls[t.call].rval, s.calls[t.call].rcode, f.payload)), c)
      case _ => |f.payload| == CommandLength(f.handler) && Step(fx, s, Read(c, chunk, env)) == RunHandler(fx, Unarm(s, c), c, f.handler, f.payload, env)
  {
    hide InvX, RunHandler, SendToWorker, Part2, Walks, GoodBatches, HandlerOk;
    InvFits(s, c);
  }

  // ---------- what a connection is in the middle of ----------

  /** The frames `fs` of a connection end in the command `b` and its parameters. */
  predicate Heads(fs: seq<Framed>, b: byte, h: Handler) {
    |fs| >= 2 && fs[|fs| - 2] == Framed(Command, [b]) && Last(fs).handler == h
  }

  /** The frames of `c` so far account for what its connection is armed for. */
  predicate Underway(s: Board, c: Id, fs: seq<Framed>) {
    c in s.clients && s.clients[c].conn.Receiving? && !DeadInput(s, c) ==>
      var conn := s.clients[c].conn;
      match conn.handler
      case Command => true
      case CallBody => conn.input.DataOf? && Heads(fs, TPTCALL, Acall) && CallHeader(s, conn.input.call, Last(fs).payload)
      case ReturnBody => conn.input.DataOf? && Heads(fs, TPTRETN, Return) && ReturnHeader(s, conn.input.call, Last(fs).payload)
      case h => fs != [] && Last(fs).handler == Command && |Last(fs).payload| == 1 && CommandHandler(Last(fs).payload[0]) == Some(h)
  }

  // ---------- the services of calls have been there ----------

  ghost predicate SvcSerial(s: Board) {
    forall t :: t in s.calls ==> s.calls[t].svc < s.next
  }

  lemma {:induction false} SvcsHaveBeen(fx: Fixes, ss: seq<Board>, es: seq<Event>, n: nat)
    requires Trace(fx, ss, es) && n <= |es|
    ensures SvcSerial(ss[n])
    decreases n
  {
    hide Inv, LogInv, Step, Possible, Allowed, Own, GoodStep, OthersOnward, NamesOnward;
    if n > 0 {
      SvcsHaveBeen(fx, ss, es, n - 1);
      TraceStep(fx, ss, es, n - 1);
    }
  }

  // ---------- one event ----------

  lemma OtherUnderway(s: Board, r: Board, c: Id, d: Id, fs: seq<Framed>)
    requires Inv(s) && SvcSerial(s) && Onward(s, r, c, Own(s, c)) && d != c && Underway(s, d, fs)
    ensures Underway(r, d, fs)
  {
    hide Inv, Own, ToLong, CutName, Onward, SvcSerial, CallHeader, ReturnHeader;
    if d in r.clients && !DeadInput(r, d) {
      OtherKeeps(s, r, c, d);
      if d in s.clients && s.clients[d].conn.Receiving? && s.clients[d].conn.input.DataOf? {
        InvFits(s, d);
        HeaderStays(s, r, c, s.clients[d].conn.input.call, Last(fs).payload);
      }
    }
  }

  lemma HeaderStays(s: Board, r: Board, c: Id, t: Id, b: seq<byte>)
    requires SvcSerial(s) && Onward(s, r, c, Own(s, c)) && t in s.calls && t in r.calls && SameData(s.calls[t], r.calls[t])
    ensures CallHeader(s, t, b) ==> CallHeader(r, t, b)
    ensures ReturnHeader(s, t, b) ==> ReturnHeader(r, t, b)
  {
    hide Own, ToLong, CutName, OthersOnward, CallsOnward;
  }

  lemma FillsUnderway(s: Board, r: Board, c: Id, chunk: seq<byte>, fs: seq<Framed>)
    requires Filling(s, c) && Fills(s, r, c, chunk) && Underway(s, c, fs)
    ensures Underway(r, c, fs)
  {
    hide Own, ToLong, CutName, Onward;
  }

  /** A command byte names its handler, and only these six bytes are commands. */
  lemma CommandByte(b: byte)
    ensures CommandHandler(b) == Some(Acall) <==> b == TPTCALL
    ensures CommandHandler(b) == Some(GetReply) <==> b == TPTGRPLY
    ensures CommandHandler(b) == Some(Advertise) <==> b == TPTADVT
    ensures CommandHandler(b) == Some(Unadvertise) <==> b == TPTUADV
    ensures CommandHandler(b) == Some(Return) <==> b == TPTRETN
    ensures Unknown(b) <==> b !in [TPTCALL, TPTGRPLY, TPTADVT, TPTUADV, TPTWORK, TPTRETN]
  {
  }

  lemma TurnUnderway(s: Board, r: Board, c: Id, f: Framed, fs: seq<Framed>)
    requires c in s.clients && s.clients[c].conn.Receiving? && !DeadInput(s, c) && f.handler == s.clients[c].conn.handler
    requires Turns(s, r, c, f) && Underway(s, c, fs) && (f.handler.Command? ==> |f.payload| == 1)
    ensures Underway(r, c, fs + [f])
  {
    hide Own, ToLong, CutName, Onward, EntriesFrom, CallHeader, ReturnHeader, CommandHandler;
    var gs := fs + [f];
    assert Last(gs) == f;
    if fs != [] {
      assert gs[|gs| - 2] == Last(fs);
      if Last(fs).handler == Command && |Last(fs).payload| == 1 {
        var b := Last(fs).payload[0];
        assert Last(fs).payload == [b];
        CommandByte(b);
      }
    }
    BodiesAreNoCommands();
  }

  lemma BodiesAreNoCommands()
    ensures forall b :: CommandHandler(b) != Some(CallBody) && CommandHandler(b) != Some(ReturnBody)
  {
  }

  lemma UnderwayStep(fx: Fixes, s: Board, e: Event, c: Id, fs: seq<Framed>)
    requires Inv(s) && SvcSerial(s) && Possible(s, e) && Allowed(fx, s, e) && Underway(s, c, fs)
    ensures Step(fx, s, e).Ok? && Underway(Step(fx, s, e).board, c, fs + FrameOf(s, e, c))
  {
    hide Inv, Step, Possible, Allowed, Own, Onward, Underway, FrameOf, SvcSerial, Turns, Fills;
    EveryEffect(fx, s, e);
    var r := Step(fx, s, e).board;
    if c != Actor(s, e) {
      NoFrame(s, e, c);
      OtherUnderway(s, r, Actor(s, e), c, fs);
      assert fs + [] == fs;
    } else {
      ActorUnderway(fx, s, e, c, fs);
    }
  }

  lemma ActorUnderway(fx: Fixes, s: Board, e: Event, c: Id, fs: seq<Framed>)
    requires Inv(s) && Possible(s, e) && Allowed(fx, s, e) && Underway(s, c, fs) && c == Actor(s, e)
    ensures Step(fx, s, e).Ok? && Underway(Step(fx, s, e).board, c, fs + FrameOf(s, e, c))
  {
    hide Inv, Walks, GoodBatches, DelClient, ReadScratch, ReadData, HandlerOk, LeaveOk, Turns, Fills, Steady, Onward, Connect, CallHeader, ReturnHeader, CommandHandler;
    match e
    case Arrive => ArriveEffect(s);
    case Leave(_, _) => LeaveEffect(fx, s, e);
    case Read(_, chunk, env) =>
      if s.clients[c].conn.Receiving? {
        ReadEffect(fx, s, c, chunk, env);
        InvFits(s, c);
        var gs := FrameOf(s, e, c);
        if gs == [] {
          FillsUnderway(s, Step(fx, s, e).board, c, chunk, fs);
          assert fs + gs == fs;
        } else {
          assert gs == [gs[0]];
          TurnUnderway(s, Step(fx, s, e).board, c, gs[0], fs);
        }
      } else {
        LeaveEffect(fx, s, e);
      }
  }

  /** At every moment of a good run, what a connection is armed for is what its last frames announced. */
  lemma {:induction false} AlwaysUnderway(fx: Fixes, ss: seq<Board>, es: seq<Event>, n: nat, c: Id)
    requires Trace(fx, ss, es) && n <= |es|
    ensures Underway(ss[n], c, Handled(ss, es, n, c))
    decreases n
  {
    hide Inv, LogInv, Step, Possible, Allowed, Own, Onward, GoodStep, FrameOf, SvcSerial, CallHeader, ReturnHeader, Heads;
    if n > 0 {
      AlwaysUnderway(fx, ss, es, n - 1, c);
      hide Underway;
      TraceStep(fx, ss, es, n - 1);
      SvcsHaveBeen(fx, ss, es, n - 1);
      UnderwayStep(fx, ss[n - 1], es[n - 1], c, Handled(ss, es, n - 1, c));
    }
  }

  // ---------- entries of the log come from frames ----------

  predicate FromFrame(e: Entry) {
    e.Accepted? || e.Submitted? || e.Returned?
  }

  lemma SteadyWrites(s: Board, r: Board, x: set<Id>, j: nat)
    requires Steady(s, r, x) && |s.log| <= j < |r.log|
    ensures Passing(s, r.log[j])
  {
    hide ClientsSteady, CallsSteady, NamesSteady, Passing;
  }

  /** The event `e` is the departure of `w`, which executes `t`. */
  predicate LeavesExecuting(s: Board, e: Event, r: Board, w: Id, t: Id) {
    Actor(s, e) == w && w in s.clients && w !in r.clients && t in s.calls && s.calls[t].executor == Some(w)
  }

  /** What a departure writes is the note of the abandoned call, or comes with other operations. */
  lemma DepartureWrites(s: Board, r: Board, c: Id, x: set<Id>, j: nat)
    requires Steady(Noted(s, c), r, x) && |s.log| <= j < |r.log|
    ensures !FromFrame(r.log[j]) && (r.log[j].Abandoned? ==> r.log[j].worker == c && ExecutesCall(s, c, r.log[j].call))
    ensures r.log[j].Handed? ==> r.log[j].svc in s.services && s.services[r.log[j].svc].name == r.log[j].name
    ensures r.log[j].Handed? ==> Offers(s, r.log[j].to, r.log[j].svc, r.log[j].opaqueValue)
  {
    var m := Noted(s, c);
    if j < |m.log| { assert r.log[j] == m.log[j]; } else { SteadyWrites(m, r, x, j); }
  }

  /** An acknowledgement, and a report of a body, is written when the frame that causes it is handled. */
  lemma WrittenFromFrame(fx: Fixes, s: Board, e: Event, r: Board, j: nat)
    requires Inv(s) && Possible(s, e) && Allowed(fx, s, e) && Step(fx, s, e) == Ok(r) && |s.log| <= j < |r.log|
    ensures FromFrame(r.log[j]) ==> e.Read? && e.c in s.clients && FrameOf(s, e, e.c) != [] && EntryFrom(s, e.c, FrameOf(s, e, e.c)[0], r.log[j])
    ensures r.log[j].Handed? ==> r.log[j].svc in s.services && s.services[r.log[j].svc].name == r.log[j].name
    ensures r.log[j].Handed? ==> Offers(s, r.log[j].to, r.log[j].svc, r.log[j].opaqueValue)
    ensures r.log[j].Abandoned? ==> LeavesExecuting(s, e, r, r.log[j].worker, r.log[j].call)
  {
    hide Inv, Walks, GoodBatches, DelClient, ReadScratch, ReadData, HandlerOk, LeaveOk, Steady, Onward, Connect, FrameOf, ConnAfter, Splice;
    match e
    case Arrive => ArriveEffect(s);
    case Leave(c, _) =>
      LeaveEffect(fx, s, e);
      DepartureWrites(s, r, c, Own(s, c), j);
    case Read(c, chunk, env) =>
      if s.clients[c].conn.Receiving? {
        ReadEffect(fx, s, c, chunk, env);
        assert FrameOf(s, e, c) != [] ==> EntryFrom(s, c, FrameOf(s, e, c)[0], r.log[j]);
      } else {
        LeaveEffect(fx, s, e);
        DepartureWrites(s, r, c, Own(s, c), j);
      }
  }

  /** The frame `f` that `es[m]` completes on the connection of `c` is the last of the bytes delivered so far. */
  lemma EndsInFrame(fx: Fixes, ss: seq<Board>, es: seq<Event>, m: nat, c: Id, f: Framed)
    requires Trace(fx, ss, es) && m < |es| && FrameOf(ss[m], es[m], c) == [f]
    ensures Delivered(es, m + 1, c) == Payloads(Handled(ss, es, m, c)) + f.payload
  {
    hide Inv, LogInv, Step, Possible, Allowed, Own, Onward, GoodStep, FrameOf, Filled, Chunk, DeadInput, Payloads;
    TraceStep(fx, ss, es, m);
    StepStream(fx, ss[m], es[m], c);
    FrameIsLive(ss[m], es[m], c);
    EveryByteIsHandledOnce(fx, ss, es, m, c);
    OneFrame(f);
  }

  lemma LastTwo(fs: seq<Framed>, b: byte, h: Handler)
    requires Heads(fs, b, h)
    ensures Payloads(fs) == Payloads(fs[..|fs| - 2]) + [b] + Last(fs).payload
  {
    hide Payloads;
    var gs := fs[..|fs| - 1];
    LastOne(fs);
    LastOne(gs);
    assert gs[..|gs| - 1] == fs[..|fs| - 2];
    assert Last(gs) == fs[|fs| - 2];
  }

  lemma LastOne(fs: seq<Framed>)
    requires fs != []
    ensures Payloads(fs) == Payloads(fs[..|fs| - 1]) + Last(fs).payload
  {
  }

  /** The two bytes and two shorts of a number are what the number is written as. */
  lemma LongBack(b: seq<byte>, at: nat)
    requires at + IOLONG <= |b|
    ensures Long(ToLong(b, at)) == b[at..at + IOLONG] && FitsLong(ToLong(b, at))
  {
    var lo, hi := ToShort(b, at), ToShort(b, at + IOSHORT);
    var v := ToLong(b, at);
    assert v % 0x1_0000 == lo && v / 0x1_0000 % 0x1_0000 == hi;
    assert lo % 256 == b[at] && lo / 256 % 256 == b[at + 1];
    assert hi % 256 == b[at + 2] && hi / 256 % 256 == b[at + 3];
  }

  // ---------- calls ----------

  /** The bytes end in a call of the service `name` with these flags, as `tpacall` sends it, and its body. */
  ghost predicate SentCall(bytes: seq<byte>, name: Name, flags: int, data: seq<byte>) {
    exists before, svc :: NameField(svc) && CutName(svc) == name && bytes == before + EncodeCall(svc, |data|, flags) + data
  }

  lemma HeaderIsCall(bytes: seq<byte>, before: seq<byte>, b: seq<byte>, data: seq<byte>)
    requires |b| == CommandLength(Acall) && ToLong(b, NAME_LENGTH) == |data| && bytes == before + [TPTCALL] + b + data
    ensures SentCall(bytes, CutName(b), ToLong(b, NAME_LENGTH + IOLONG), data)
  {
    hide CutName, ToLong, Long;
    var svc, rest := b[..NAME_LENGTH], b[NAME_LENGTH..];
    LongBack(b, NAME_LENGTH);
    LongBack(b, NAME_LENGTH + IOLONG);
    assert b == svc + rest;
    CutNameIgnoresTail(svc, rest, NAME_LENGTH);
    var flags := ToLong(b, NAME_LENGTH + IOLONG);
    assert b == svc + Long(|data|) + Long(flags);
    assert bytes == before + EncodeCall(svc, |data|, flags) + data;
  }

  /** The header of the call that the entry `e`, written by event `m`, reports: what it announces, and where it stands. */
  lemma SubmittedHeader(fx: Fixes, ss: seq<Board>, es: seq<Event>, m: nat, e: Entry) returns (before: seq<byte>, b: seq<byte>)
    requires Trace(fx, ss, es) && m < |es| && e.Submitted? && es[m].Read? && es[m].c in ss[m].clients
    requires FrameOf(ss[m], es[m], es[m].c) != [] && EntryFrom(ss[m], es[m].c, FrameOf(ss[m], es[m], es[m].c)[0], e)
    ensures e.from == es[m].c && |b| == CommandLength(Acall) && ToLong(b, NAME_LENGTH) == |e.data|
    ensures Delivered(es, m + 1, e.from) == before + [TPTCALL] + b + e.data
    ensures if ss[m].clients[e.from].conn.Receiving? && ss[m].clients[e.from].conn.handler == CallBody
            then ss[m].clients[e.from].conn.input == DataOf(e.call) && e.call in ss[m].calls && CallHeader(ss[m], e.call, b)
            else e.call == ss[m].next && FrameOf(ss[m], es[m], e.from) == [Framed(Acall, b)]
  {
    hide Inv, LogInv, Step, Possible, Allowed, Own, Onward, GoodStep, Trace, Payloads, Delivered, Handled, ToLong, CutName, Splice;
    TraceStarts(fx, ss, es);
    var s, c := ss[m], es[m].c;
    var f := FrameOf(s, es[m], c)[0];
    var fs := Handled(ss, es, m, c);
    EndsInFrame(fx, ss, es, m, c, f);
    AlwaysUnderway(fx, ss, es, m, c);
    if f.handler.CallBody? {
      b := Last(fs).payload;
      before := Payloads(fs[..|fs| - 2]);
      LastTwo(fs, TPTCALL, Acall);
      assert |f.payload| == |s.calls[e.call].data|;
    } else {
      b := f.payload;
      LastOne(fs);
      before := Payloads(fs[..|fs| - 1]);
      CommandByte(Last(fs).payload[0]);
      assert Last(fs).payload == [TPTCALL];
    }
  }

  /** Entries that clash are the same entry. */
  lemma OnlyOneAccepted(log: seq<Entry>, a: Entry, b: Entry)
    requires Sound(log) && a in log && b in log && a.Accepted? && b.Accepted? && a.call == b.call
    ensures a == b
  {
    var i :| 0 <= i < |log| && log[i] == a;
    var j :| 0 <= j < |log| && log[j] == b;
    NoClash(log, i, j);
    NoClash(log, j, i);
  }

  lemma NoClash(log: seq<Entry>, i: nat, j: nat)
    requires Sound(log) && j < |log|
    ensures i < j ==> !Clash(log[i], log[j])
  {
    if i < j {
      assert Fair(log[..j], log[j]);
      assert log[..j][i] == log[i];
    }
  }

  /** What was acknowledged for a call is what its header asked for. */
  lemma AcceptedAsAsked(fx: Fixes, ss: seq<Board>, es: seq<Event>, m: nat, e: Entry, b: seq<byte>, n: nat, a: Entry)
    requires Trace(fx, ss, es) && m < n <= |es| && e.Submitted? && es[m].Read? && es[m].c == e.from && e in ss[m + 1].log
    requires e.from in ss[m].clients && a.Accepted? && a.call == e.call && a in ss[n].log && |b| == CommandLength(Acall)
    requires if ss[m].clients[e.from].conn.Receiving? && ss[m].clients[e.from].conn.handler == CallBody
             then ss[m].clients[e.from].conn.input == DataOf(e.call) && e.call in ss[m].calls && CallHeader(ss[m], e.call, b)
                  && ss[m].calls[e.call].svc in ss[m].services
             else e.call == ss[m].next && FrameOf(ss[m], es[m], e.from) == [Framed(Acall, b)]
    ensures a.to == e.from && a.flags == ToLong(b, NAME_LENGTH + IOLONG)
    ensures a.svc in ss[m].services && a.svc < ss[m].next && ss[m].services[a.svc].name == CutName(b)
  {
    hide Inv, Step, Possible, Allowed, Own, Onward, GoodStep, Trace, ToLong, CutName, FrameOf, Sound, CallLogged;
    TraceStarts(fx, ss, es);
    var s := ss[m];
    TraceStep(fx, ss, es, m);
    TraceGood(fx, ss, es, n);
    InvNames(s);
    if s.clients[e.from].conn.Receiving? && s.clients[e.from].conn.handler == CallBody {
      var k := s.calls[e.call];
      assert AcceptEntry(k, e.call) in s.log by { AcceptedIsLogged(s, e.call); }
      TraceGrows(fx, ss, es, m, n);
      StillIn(s.log, ss[n].log, AcceptEntry(k, e.call));
      OnlyOneAccepted(ss[n].log, a, AcceptEntry(k, e.call));
      ReadsAsExecutor(s, e.from, e.call);
    } else {
      var i :| 0 <= i < |ss[n].log| && ss[n].log[i] == a;
      var p := WrittenAt(fx, ss, es, n, i);
      TraceStep(fx, ss, es, p);
      WrittenFromFrame(fx, ss[p], es[p], ss[p + 1], i);
      SameEvent(fx, ss, es, m, p, e, i);
    }
  }

  lemma AcceptedIsLogged(s: Board, t: Id)
    requires LogInv(s) && t in s.calls
    ensures AcceptEntry(s.calls[t], t) in s.log
  {
    hide Sound;
    assert CallLogged(s, t);
  }

  lemma StillIn(log: seq<Entry>, log': seq<Entry>, e: Entry)
    requires |log| <= |log'| && (forall i :: 0 <= i < |log| ==> log'[i] == log[i]) && e in log
    ensures e in log'
  {
    var i :| 0 <= i < |log| && log[i] == e;
    assert log'[i] == e;
  }

  lemma InvNames(s: Board)
    requires Inv(s)
    ensures Indexed(s) && Serials(s)
  {
    hide InvX;
    InvIndexed(s, TIGHT);
  }

  /** A call is accepted and submitted by one event if it has no body. */
  lemma SameEvent(fx: Fixes, ss: seq<Board>, es: seq<Event>, m: nat, p: nat, e: Entry, i: nat)
    requires Trace(fx, ss, es) && m < |es| && p < |es| && e.Submitted? && e in ss[m + 1].log && e.call == ss[m].next
    requires |ss[p].log| <= i < |ss[p + 1].log| && ss[p + 1].log[i].Accepted? && ss[p + 1].log[i].call == e.call == ss[p].next
    ensures m == p
  {
    hide Inv, Step, Possible, Allowed, Own, Onward, GoodStep, Trace, Sound, CallLogged;
    TraceStarts(fx, ss, es);
    TraceGood(fx, ss, es, m + 1);
    TraceGood(fx, ss, es, p + 1);
    assert e.call < ss[p + 1].next;
    var j :| 0 <= j < |ss[m + 1].log| && ss[m + 1].log[j] == e;
    assert e.call < ss[m + 1].next;
    if p < m { TraceGrows(fx, ss, es, p + 1, m); }
    if m < p { TraceGrows(fx, ss, es, m + 1, p); }
  }

  /** A complete body finds its service. */
  lemma BodyFindsService(fx: Fixes, s: Board, e: Event)
    requires Inv(s) && Possible(s, e) && Allowed(fx, s, e) && e.Read? && FrameOf(s, e, e.c) != []
    requires s.clients[e.c].conn.handler == CallBody
    ensures s.clients[e.c].conn.input.DataOf? && s.clients[e.c].conn.input.call in s.calls
    ensures s.calls[s.clients[e.c].conn.input.call].svc in s.services
  {
    hide InvX, HandlerOk, Walks, GoodBatches;
    InvFits(s, e.c);
  }

  /**
   Whatever a worker is handed, some client delivered: at some moment of the run the bytes read from that
   client ended in a call of that service with those flags, and that body.
   */
  lemma WorkWasDelivered(fx: Fixes, ss: seq<Board>, es: seq<Event>, j: nat) returns (c: Id, n: nat)
    requires Trace(fx, ss, es) && j < |ss[|es|].log| && ss[|es|].log[j].Handed?
    ensures n <= |es| && var e := ss[|es|].log[j];
      SentCall(Delivered(es, n, c), e.name, e.flags, e.data) && SentBy(c, ss[|es|].log[..j], e)
  {
    hide Inv, LogInv, Step, Possible, Allowed, Own, Onward, GoodStep, Trace, Delivered, ToLong, CutName, SentCall, FrameOf, Sound, CallHeader;
    TraceStarts(fx, ss, es);
    var log, h := ss[|es|].log, ss[|es|].log[j];
    c := HandedFrom(fx, ss, es, j);
    var e, a := Submitted(c, h.call, h.data), Accepted(c, h.call, h.cd, h.svc, h.flags);
    var i :| 0 <= i < j && log[..j][i] == e;
    assert log[i] == e;
    var m := WrittenAt(fx, ss, es, |es|, i);
    TraceStep(fx, ss, es, m);
    WrittenFromFrame(fx, ss[m], es[m], ss[m + 1], i);
    var before, b := SubmittedHeader(fx, ss, es, m, e);
    if ss[m].clients[c].conn.Receiving? && ss[m].clients[c].conn.handler == CallBody { BodyFindsService(fx, ss[m], es[m]); }
    assert e == ss[m + 1].log[i];
    assert a in log by { InPrefix(log, j, a); }
    AcceptedAsAsked(fx, ss, es, m, e, b, |es|, a);
    HeaderIsCall(Delivered(es, m + 1, c), before, b, e.data);
    var q := WrittenAt(fx, ss, es, |es|, j);
    TraceStep(fx, ss, es, q);
    WrittenFromFrame(fx, ss[q], es[q], ss[q + 1], j);
    assert m <= q by { if q < m { TraceGrows(fx, ss, es, q + 1, m); } }
    NamesStay(fx, ss, es, m, q, h.svc);
    n := m + 1;
  }

  lemma InPrefix(log: seq<Entry>, j: nat, a: Entry)
    requires j <= |log| && a in log[..j]
    ensures a in log
  {
  }

  lemma HandedFrom(fx: Fixes, ss: seq<Board>, es: seq<Event>, j: nat) returns (c: Id)
    requires Trace(fx, ss, es) && j < |ss[|es|].log| && ss[|es|].log[j].Handed?
    ensures SentBy(c, ss[|es|].log[..j], ss[|es|].log[j])
  {
    hide Inv, Step, Possible, Allowed, GoodStep, Trace, CallLogged;
    TraceStarts(fx, ss, es);
    TraceGood(fx, ss, es, |es|);
    var log, e := ss[|es|].log, ss[|es|].log[j];
    assert Fair(log[..j], e);
    c :| Submitted(c, e.call, e.data) in log[..j] && Accepted(c, e.call, e.cd, e.svc, e.flags) in log[..j];
  }

  // ---------- returns ----------

  /** The bytes end in a return as `tpreturn` sends it. */
  ghost predicate SentReturn(bytes: seq<byte>, rval: byte, rcode: int, data: seq<byte>) {
    exists before :: bytes == before + EncodeReturn(rval, rcode, data)
  }

  lemma HeaderIsReturn(bytes: seq<byte>, before: seq<byte>, b: seq<byte>, data: seq<byte>)
    requires |b| == CommandLength(Return) && ToLong(b, 1 + IOLONG) == |data| && bytes == before + [TPTRETN] + b + data
    ensures SentReturn(bytes, b[0], ToLong(b, 1), data)
  {
    hide ToLong, Long;
    LongBack(b, 1);
    LongBack(b, 1 + IOLONG);
    assert b == [b[0]] + Long(ToLong(b, 1)) + Long(|data|);
    assert bytes == before + EncodeReturn(b[0], ToLong(b, 1), data);
  }

  /** Whatever is logged as returned by a worker, that worker delivered, as the end of what was read from it until then. */
  lemma ReturnWasDelivered(fx: Fixes, ss: seq<Board>, es: seq<Event>, j: nat) returns (n: nat)
    requires Trace(fx, ss, es) && j < |ss[|es|].log| && ss[|es|].log[j].Returned?
    ensures n <= |es| && var e := ss[|es|].log[j]; SentReturn(Delivered(es, n, e.worker), e.rval, e.rcode, e.data)
  {
    hide Inv, LogInv, Step, Possible, Allowed, Own, Onward, GoodStep, Trace, Payloads, Delivered, Handled, ToLong, SentReturn, Splice;
    TraceStarts(fx, ss, es);
    var e := ss[|es|].log[j];
    var m := WrittenAt(fx, ss, es, |es|, j);
    TraceStep(fx, ss, es, m);
    WrittenFromFrame(fx, ss[m], es[m], ss[m + 1], j);
    var s, c := ss[m], es[m].c;
    var f := FrameOf(s, es[m], c)[0];
    var fs := Handled(ss, es, m, c);
    EndsInFrame(fx, ss, es, m, c, f);
    AlwaysUnderway(fx, ss, es, m, c);
    n := m + 1;
    if f.handler.ReturnBody? {
      LastTwo(fs, TPTRETN, Return);
      assert |f.payload| == |s.calls[e.call].data|;
      HeaderIsReturn(Delivered(es, n, c), Payloads(fs[..|fs| - 2]), Last(fs).payload, e.data);
    } else {
      LastOne(fs);
      CommandByte(Last(fs).payload[0]);
      assert Last(fs).payload == [TPTRETN];
      assert Delivered(es, n, c) == Payloads(fs[..|fs| - 1]) + [TPTRETN] + f.payload + [];
      HeaderIsReturn(Delivered(es, n, c), Payloads(fs[..|fs| - 1]), f.payload, e.data);
    }
  }

  // ---------- failures ----------

  /** A call is noted down as abandoned when its worker leaves while it executes the call. */
  lemma AbandonedByDeparture(fx: Fixes, ss: seq<Board>, es: seq<Event>, j: nat) returns (m: nat)
    requires Trace(fx, ss, es) && j < |ss[|es|].log| && ss[|es|].log[j].Abandoned?
    ensures m < |es| && |ss[m].log| <= j < |ss[m + 1].log|
    ensures var e := ss[|es|].log[j]; LeavesExecuting(ss[m], es[m], ss[m + 1], e.worker, e.call)
  {
    hide Inv, LogInv, Step, Possible, Allowed, Own, Onward, GoodStep, Trace;
    TraceStarts(fx, ss, es);
    m := WrittenAt(fx, ss, es, |es|, j);
    TraceStep(fx, ss, es, m);
    WrittenFromFrame(fx, ss[m], es[m], ss[m + 1], j);
  }

  /**
   Over any good run, a reply that its worker did not return says TPESVCERR, and the worker that had been
   handed the call had left, earlier, while it executed it.
   */
  lemma FailureMeansDeparture(fx: Fixes, ss: seq<Board>, es: seq<Event>, j: nat) returns (m: nat, w: Id)
    requires Trace(fx, ss, es) && j < |ss[|es|].log| && ss[|es|].log[j].Replied?
    requires var e := ss[|es|].log[j]; forall d :: Returned(d, e.call, e.rval, e.rcode, e.data) !in ss[|es|].log[..j]
    ensures var e := ss[|es|].log[j];
      && m < |es| && |ss[m].log| <= j && LeavesExecuting(ss[m], es[m], ss[m + 1], w, e.call)
      && WasHandedTo(ss[|es|].log[..j], e.call, w) && e.rval == TPERRNO && e.rcode == TPESVCERR
  {
    hide Inv, LogInv, Step, Possible, Allowed, Own, Onward, GoodStep, Trace, Sound, LeavesExecuting, Explained;
    TraceStarts(fx, ss, es);
    var log, e := ss[|es|].log, ss[|es|].log[j];
    assert Sound(log) by { TraceGood(fx, ss, es, |es|); LogIsSound(ss[|es|]); }
    w := FailureIsNoted(log, j);
    var i, k := EndedByItsWorker(log, j, Abandoned(w, e.call));
    assert log[k] == Abandoned(w, e.call);
    m := AbandonedByDeparture(fx, ss, es, k);
  }

  lemma LogIsSound(s: Board)
    requires LogInv(s)
    ensures Sound(s.log)
  {
    hide Sound, CallLogged;
  }

  lemma FailureIsNoted(log: seq<Entry>, j: nat) returns (w: Id)
    requires Sound(log) && j < |log| && log[j].Replied?
    requires forall d :: Returned(d, log[j].call, log[j].rval, log[j].rcode, log[j].data) !in log[..j]
    ensures Abandoned(w, log[j].call) in log[..j] && log[j].rval == TPERRNO && log[j].rcode == TPESVCERR
  {
    assert Fair(log[..j], log[j]);
    w :| Abandoned(w, log[j].call) in log[..j];
  }
}
