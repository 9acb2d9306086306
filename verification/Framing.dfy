/** How a connection's bytes become handler calls, whatever pieces they are read in. */
module Framing {
  import opened Sequences
  import opened Wire
  import opened Board
  import opened Steps

  /** A handler was called with a full buffer. */
  datatype Framed = Framed(handler: Handler, payload: seq<byte>)

  function Joined(chunks: seq<seq<byte>>): seq<byte> {
    if chunks == [] then [] else chunks[0] + Joined(chunks[1..])
  }

  function Payloads(made: seq<Framed>): seq<byte> {
    if made == [] then [] else Payloads(made[..|made| - 1]) + Last(made).payload
  }

  /** The buffer has the length its handler asked for. */
  predicate ScratchReads(s: Board, c: Id)
    requires c in s.clients && s.clients[c].conn.Receiving? && s.clients[c].conn.input.Scratch?
  {
    var conn := s.clients[c].conn;
    !conn.handler.CallBody? && !conn.handler.ReturnBody? && |conn.input.bytes| == CommandLength(conn.handler)
  }

  /** The connection of `c` is armed and its buffer has room for `n` bytes. */
  predicate HasRoom(s: Board, c: Id, n: nat) {
    c in s.clients && s.clients[c].conn.Receiving? && LiveInput(s, c) && s.clients[c].conn.used + n <= Need(s, c)
    && (s.clients[c].conn.input.Scratch? ==> ScratchReads(s, c))
  }

  lemma SpliceTwice(b: seq<byte>, used: nat, x: seq<byte>, y: seq<byte>)
    requires used + |x| + |y| <= |b|
    ensures Splice(Splice(b, used, x), used + |x|, y) == Splice(b, used, x + y)
  {
  }

  lemma SplitScratch(fx: Fixes, s: Board, c: Id, x: seq<byte>, y: seq<byte>, env: Env, env': Env)
    requires HasRoom(s, c, |x| + |y|) && y != [] && s.clients[c].conn.input.Scratch?
    requires ReadScratch(fx, s, c, x, env').Ok?
    ensures var s1 := ReadScratch(fx, s, c, x, env').board;
      HasRoom(s1, c, |y|) && s1.clients[c].conn.input.Scratch? && ReadScratch(fx, s1, c, y, env) == ReadScratch(fx, s, c, x + y, env)
  {
    hide RunHandler;
    var Receiving(h, input, used) := s.clients[c].conn;
    SpliceTwice(input.bytes, used, x, y);
    var s1 := ReadScratch(fx, s, c, x, env').board;
    assert s1 == PutClient(s, c, s.clients[c].(conn := Receiving(h, Scratch(Splice(input.bytes, used, x)), used + |x|)));
    assert Unarm(s1, c).clients == Unarm(s, c).clients;
    var conn := Receiving(h, Scratch(Splice(input.bytes, used, x + y)), used + |x + y|);
    assert s1.clients[c := s1.clients[c].(conn := conn)] == s.clients[c := s.clients[c].(conn := conn)];
  }

  lemma SplitData(fx: Fixes, s: Board, c: Id, x: seq<byte>, y: seq<byte>)
    requires HasRoom(s, c, |x| + |y|) && y != [] && s.clients[c].conn.input.DataOf?
    ensures ReadData(fx, s, c, x).Ok?
    ensures var s1 := ReadData(fx, s, c, x).board;
      HasRoom(s1, c, |y|) && s1.clients[c].conn.input.DataOf? && ReadData(fx, s1, c, y) == ReadData(fx, s, c, x + y)
  {
    hide SendToWorker, Part2;
    var Receiving(h, input, used) := s.clients[c].conn;
    var t := input.call;
    SpliceTwice(s.calls[t].data, used, x, y);
    var s1 := ReadData(fx, s, c, x).board;
    var b := Splice(s.calls[t].data, used, x + y);
    assert s1.calls[t := s1.calls[t].(data := b)] == s.calls[t := s.calls[t].(data := b)];
    assert Unarm(s1, c).clients == Unarm(s, c).clients;
    var conn := Receiving(h, input, used + |x + y|);
    assert s1.clients[c := s1.clients[c].(conn := conn)] == s.clients[c := s.clients[c].(conn := conn)];
  }

  /** Reading `x` and then `y` is reading `x + y`. */
  lemma SplitRead(fx: Fixes, s: Board, c: Id, x: seq<byte>, y: seq<byte>, env: Env, env': Env)
    requires HasRoom(s, c, |x| + |y|) && y != [] && Step(fx, s, Read(c, x, env')).Ok?
    ensures HasRoom(Step(fx, s, Read(c, x, env')).board, c, |y|)
    ensures Step(fx, Step(fx, s, Read(c, x, env')).board, Read(c, y, env)) == Step(fx, s, Read(c, x + y, env))
  {
    hide ReadScratch, ReadData;
    if s.clients[c].conn.input.Scratch? {
      SplitScratch(fx, s, c, x, y, env, env');
    } else {
      SplitData(fx, s, c, x, y);
    }
  }

  /** The clock and the library as they are when byte number `at` of the stream has been read. */
  type EnvAt = nat -> Env

  function Feed(fx: Fixes, s: Board, c: Id, chunks: seq<seq<byte>>, envAt: EnvAt, at: nat): Outcome
    decreases |chunks|
  {
    if chunks == [] then Ok(s)
    else
      var s1 :- Step(fx, s, Read(c, chunks[0], envAt(at + |chunks[0]|)));
      Feed(fx, s1, c, chunks[1..], envAt, at + |chunks[0]|)
  }

  function FeedBytes(fx: Fixes, s: Board, c: Id, bytes: seq<byte>, envAt: EnvAt, at: nat): Outcome
    decreases |bytes|
  {
    if bytes == [] then Ok(s)
    else
      var s1 :- Step(fx, s, Read(c, [bytes[0]], envAt(at + 1)));
      FeedBytes(fx, s1, c, bytes[1..], envAt, at + 1)
  }

  /** Each chunk is a read that fits. */
  predicate Fitting(fx: Fixes, s: Board, c: Id, chunks: seq<seq<byte>>, envAt: EnvAt, at: nat)
    decreases |chunks|
  {
    chunks == [] || (chunks[0] != [] && HasRoom(s, c, |chunks[0]|)
      && var o := Step(fx, s, Read(c, chunks[0], envAt(at + |chunks[0]|)));
         o.Ok? ==> Fitting(fx, o.board, c, chunks[1..], envAt, at + |chunks[0]|))
  }

  lemma {:induction false} ReadIsBytewise(fx: Fixes, s: Board, c: Id, chunk: seq<byte>, envAt: EnvAt, at: nat)
    requires chunk != [] && HasRoom(s, c, |chunk|)
    ensures Step(fx, s, Read(c, chunk, envAt(at + |chunk|))) == FeedBytes(fx, s, c, chunk, envAt, at)
    decreases |chunk|
  {
    hide Step;
    var x, y := [chunk[0]], chunk[1..];
    if y == [] {
      assert chunk == x;
    } else {
      FirstByteReads(fx, s, c, chunk[0], |chunk|, envAt(at + 1));
      SplitRead(fx, s, c, x, y, envAt(at + |chunk|), envAt(at + 1));
      assert x + y == chunk;
      var s1 := Step(fx, s, Read(c, x, envAt(at + 1))).board;
      ReadIsBytewise(fx, s1, c, y, envAt, at + 1);
      assert at + 1 + |y| == at + |chunk|;
    }
  }

  /** A byte that does not fill the buffer is only stored. */
  lemma FirstByteReads(fx: Fixes, s: Board, c: Id, x: byte, n: nat, env: Env)
    requires HasRoom(s, c, n) && n > 1
    ensures Step(fx, s, Read(c, [x], env)).Ok?
  {
  }

  lemma {:induction false} FeedBytesAppend(fx: Fixes, s: Board, c: Id, x: seq<byte>, y: seq<byte>, envAt: EnvAt, at: nat)
    ensures FeedBytes(fx, s, c, x + y, envAt, at) ==
      match FeedBytes(fx, s, c, x, envAt, at)
      case Ok(s1) => FeedBytes(fx, s1, c, y, envAt, at + |x|)
      case Fault(w) => Fault(w)
    decreases |x|
  {
    hide Step;
    if x == [] {
      assert x + y == y;
    } else {
      assert (x + y)[0] == x[0] && (x + y)[1..] == x[1..] + y;
      var o := Step(fx, s, Read(c, [x[0]], envAt(at + 1)));
      if o.Ok? { FeedBytesAppend(fx, o.board, c, x[1..], y, envAt, at + 1); }
    }
  }

  lemma {:induction false} FeedIsBytewise(fx: Fixes, s: Board, c: Id, chunks: seq<seq<byte>>, envAt: EnvAt, at: nat)
    requires Fitting(fx, s, c, chunks, envAt, at)
    ensures Feed(fx, s, c, chunks, envAt, at) == FeedBytes(fx, s, c, Joined(chunks), envAt, at)
    decreases |chunks|
  {
    hide Step, HasRoom;
    if chunks != [] {
      var n := |chunks[0]|;
      ReadIsBytewise(fx, s, c, chunks[0], envAt, at);
      FeedBytesAppend(fx, s, c, chunks[0], Joined(chunks[1..]), envAt, at);
      var o := Step(fx, s, Read(c, chunks[0], envAt(at + n)));
      if o.Ok? { FeedIsBytewise(fx, o.board, c, chunks[1..], envAt, at + n); }
    }
  }

  /** The whole switchboard ends in the same state however the bytes of a client are cut into reads. */
  lemma ReadsMayBeCutAnywhere(fx: Fixes, s: Board, c: Id, chunks: seq<seq<byte>>, chunks': seq<seq<byte>>, envAt: EnvAt, at: nat)
    requires Fitting(fx, s, c, chunks, envAt, at) && Fitting(fx, s, c, chunks', envAt, at) && Joined(chunks) == Joined(chunks')
    ensures Feed(fx, s, c, chunks, envAt, at) == Feed(fx, s, c, chunks', envAt, at)
  {
    hide Fitting, Feed, FeedBytes;
    FeedIsBytewise(fx, s, c, chunks, envAt, at);
    FeedIsBytewise(fx, s, c, chunks', envAt, at);
  }
}
