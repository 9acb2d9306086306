/** The messages between the client library and the switchboard, byte by byte. */
module Codec {
  import opened Sequences
  import opened Wire
  import opened Board

  const TPFAIL: byte := 1
  const TPSUCCESS: byte := 2

  const TPTCALL: byte := 0
  const TPTGRPLY: byte := 1
  const TPTADVT: byte := 2
  const TPTUADV: byte := 3
  const TPTRETN: byte := 5

  // ---------- numbers ----------

  /** The low sixteen bits, low byte first. */
  function Short(v: int): (r: seq<byte>)
    ensures |r| == IOSHORT
  {
    [v % 256, v / 256 % 256]
  }

  /** The low thirty-two bits, low byte first. */
  function Long(v: int): (r: seq<byte>)
    ensures |r| == IOLONG
  {
    Short(v % 0x1_0000) + Short(v / 0x1_0000 % 0x1_0000)
  }

  lemma ShortValue(v: int)
    ensures ToShort(Short(v), 0) == v % 0x1_0000
  {
  }

  lemma ShortAt(b: seq<byte>, at: nat, v: int)
    requires at + IOSHORT <= |b| && b[at..at + IOSHORT] == Short(v)
    ensures ToShort(b, at) == v % 0x1_0000
  {
    assert b[at] == Short(v)[0] && b[at + 1] == Short(v)[1];
    ShortValue(v);
  }

  /** A short survives the wire as the same short, and as an unsigned number it is never -1. */
  lemma ShortRoundTrip(v: int)
    ensures AsShort(ToShort(Short(v), 0)) == v <==> -0x8000 <= v < 0x8000
    ensures ToShort(Short(v), 0) != -1
    ensures -0x8000 <= v < 0x8000 ==> AsShort(ToShort(Short(ToShort(Short(v), 0)), 0)) == v
  {
    ShortValue(v);
    ShortValue(v % 0x1_0000);
  }

  lemma LongAt(b: seq<byte>, at: nat, v: int)
    requires at + IOLONG <= |b| && b[at..at + IOLONG] == Long(v)
    ensures ToLong(b, at) == v % 0x1_0000 + 0x1_0000 * AsShort(v / 0x1_0000 % 0x1_0000)
  {
    var lo, hi := v % 0x1_0000, v / 0x1_0000 % 0x1_0000;
    assert b[at..at + 2] == b[at..at + IOLONG][..2] == Short(lo);
    assert b[at + 2..at + 4] == b[at..at + IOLONG][2..] == Short(hi);
    ShortAt(b, at, lo);
    ShortAt(b, at + 2, hi);
  }

  /** A number is read back as it was written exactly when it fits in thirty-two bits with its sign. */
  lemma LongRoundTrip(b: seq<byte>, at: nat, v: int)
    requires at + IOLONG <= |b| && b[at..at + IOLONG] == Long(v)
    ensures ToLong(b, at) == v <==> -0x8000_0000 <= v < 0x8000_0000
  {
    LongAt(b, at, v);
  }

  predicate FitsLong(v: int) {
    -0x8000_0000 <= v < 0x8000_0000
  }

  /** The two flags that `svrgetrply` looks at are the lowest and the highest bit of the first byte, whatever the others are. */
  lemma FlagsOnTheWire(b: seq<byte>, at: nat)
    requires at + IOLONG <= |b|
    ensures FlagSet(ToLong(b, at), TPNOBLOCK) <==> b[at] % 2 == 1
    ensures FlagSet(ToLong(b, at), TPGETANY) <==> b[at] >= 128
  {
    var v, low := ToLong(b, at), b[at] as int;
    var k := (v - low) / 256;
    assert v == 256 * k + low;
    assert v / 128 == 2 * k + low / 128;
  }

  // ---------- requests ----------

  /** The fifteen bytes that are sent for a name: the name, and whatever follows its NUL. */
  predicate NameField(b: seq<byte>) {
    |b| == NAME_LENGTH
  }

  function EncodeCall(svc: seq<byte>, len: int, flags: int): seq<byte> {
    [TPTCALL] + svc + Long(len) + Long(flags)
  }

  function EncodeGetReply(cd: int, flags: int): seq<byte> {
    [TPTGRPLY] + Short(cd) + Long(flags)
  }

  function EncodeAdvertise(svc: seq<byte>, opaqueValue: int): seq<byte> {
    [TPTADVT] + svc + Long(opaqueValue)
  }

  function EncodeUnadvertise(svc: seq<byte>): seq<byte> {
    [TPTUADV] + svc
  }

  function EncodeReturn(rval: byte, rcode: int, data: seq<byte>): seq<byte> {
    [TPTRETN, rval] + Long(rcode) + Long(|data|) + data
  }

  /** The message `m` is one command byte and one full buffer, on which the switchboard runs `handler`. */
  predicate Frames(m: seq<byte>, h: Handler) {
    !h.CallBody? && !h.ReturnBody? && |m| == 1 + CommandLength(h) && CommandHandler(m[0]) == Some(h)
  }

  lemma {:induction false} CutNameIgnoresTail(b: seq<byte>, tail: seq<byte>, n: nat)
    requires n <= NAME_LENGTH && n <= |b|
    ensures CutName(b + tail, n) == CutName(b, n)
    decreases n
  {
    if n > 0 {
      assert (b + tail)[0] == b[0] && (b + tail)[1..] == b[1..] + tail;
      if b[0] != 0 { CutNameIgnoresTail(b[1..], tail, n - 1); }
    }
  }

  /** What `tpacall` sends makes the switchboard run `svracall` with the same name, length and flags. */
  lemma CallArrives(fx: Fixes, s: Board, c: Id, env: Env, svc: seq<byte>, len: int, flags: int)
    requires NameField(svc) && FitsLong(len) && FitsLong(flags)
    ensures var m := EncodeCall(svc, len, flags);
      Frames(m, Acall) && RunHandler(fx, s, c, Acall, m[1..], env) == SvrAcall(fx, s, c, CutName(svc), len, flags, env)
  {
    hide SvrAcall, CutName, ToLong;
    var m := EncodeCall(svc, len, flags);
    var b := m[1..];
    assert b == svc + (Long(len) + Long(flags));
    assert b[NAME_LENGTH..NAME_LENGTH + IOLONG] == Long(len);
    assert b[NAME_LENGTH + IOLONG..NAME_LENGTH + IOLONG + IOLONG] == Long(flags);
    LongRoundTrip(b, NAME_LENGTH, len);
    LongRoundTrip(b, NAME_LENGTH + IOLONG, flags);
    CutNameIgnoresTail(svc, Long(len) + Long(flags), NAME_LENGTH);
  }

  /** What `tpgetrply` sends asks for the call whose descriptor was returned by `tpacall`. */
  lemma GetReplyArrives(fx: Fixes, s: Board, c: Id, env: Env, cd: Wire.Short, flags: int)
    requires FitsLong(flags)
    ensures var m := EncodeGetReply(ToShort(Short(cd), 0), flags);
      Frames(m, GetReply) && RunHandler(fx, s, c, GetReply, m[1..], env) == SvrGetReply(s, c, cd, flags)
  {
    hide SvrGetReply, ToLong, ToShort, Short, Long, AsShort;
    var u := ToShort(Short(cd), 0);
    var b := EncodeGetReply(u, flags)[1..];
    assert b == Short(u) + Long(flags);
    assert b[0..IOSHORT] == Short(u) && b[IOSHORT..IOSHORT + IOLONG] == Long(flags);
    ShortAt(b, 0, u);
    ShortComesBack(cd);
    LongRoundTrip(b, IOSHORT, flags);
  }

  /** A short that was read as an unsigned number is the same short when it is sent back. */
  lemma ShortComesBack(cd: Wire.Short)
    ensures var u := ToShort(Short(cd), 0); u % 0x1_0000 == u && AsShort(u) == cd
  {
    ShortValue(cd);
  }

  lemma AdvertiseArrives(fx: Fixes, s: Board, c: Id, env: Env, svc: seq<byte>, o: int)
    requires NameField(svc) && FitsLong(o)
    ensures var m := EncodeAdvertise(svc, o);
      Frames(m, Advertise) && RunHandler(fx, s, c, Advertise, m[1..], env) == SvrAdvertise(s, c, CutName(svc), o)
  {
    hide SvrAdvertise, CutName, ToLong;
    var b := EncodeAdvertise(svc, o)[1..];
    assert b == svc + Long(o) && b[NAME_LENGTH..NAME_LENGTH + IOLONG] == Long(o);
    LongRoundTrip(b, NAME_LENGTH, o);
    CutNameIgnoresTail(svc, Long(o), NAME_LENGTH);
  }

  lemma UnadvertiseArrives(fx: Fixes, s: Board, c: Id, env: Env, svc: seq<byte>)
    requires NameField(svc)
    ensures var m := EncodeUnadvertise(svc);
      Frames(m, Unadvertise) && RunHandler(fx, s, c, Unadvertise, m[1..], env) == SvrUnadvertise(s, c, CutName(svc))
  {
    hide SvrUnadvertise, CutName;
    assert EncodeUnadvertise(svc)[1..] == svc;
  }

  /** What `tpreturn` sends is a `svrreturn` frame followed by exactly the reply body it announces. */
  lemma ReturnArrives(fx: Fixes, s: Board, c: Id, env: Env, rval: byte, rcode: int, data: seq<byte>)
    requires FitsLong(rcode) && |data| < 0x8000_0000
    ensures var m := EncodeReturn(rval, rcode, data);
      var n := 1 + CommandLength(Return);
      && |m| == n + |data| && m[n..] == data
      && Frames(m[..n], Return) && RunHandler(fx, s, c, Return, m[..n][1..], env) == SvrReturn(s, c, rval, rcode, |data|)
  {
    hide SvrReturn, ToLong;
    var m := EncodeReturn(rval, rcode, data);
    var n := 1 + CommandLength(Return);
    var b := m[..n][1..];
    assert b == [rval] + Long(rcode) + Long(|data|);
    assert b[1..1 + IOLONG] == Long(rcode) && b[1 + IOLONG..1 + IOLONG + IOLONG] == Long(|data|);
    LongRoundTrip(b, 1, rcode);
    LongRoundTrip(b, 1 + IOLONG, |data|);
  }

  // ---------- answers ----------

  /** A name as `strncpy` stored it: padded with NULs to fifteen bytes. */
  function Padded(n: Name): (r: seq<byte>)
    ensures |r| == NAME_LENGTH
  {
    n + ZeroBytes(NAME_LENGTH - |n|)
  }

  lemma {:induction false} PaddedCuts(n: seq<byte>, k: nat)
    requires 0 !in n && |n| <= k <= NAME_LENGTH
    ensures CutName(n + ZeroBytes(k - |n|), k) == n
    decreases k
  {
    var b := n + ZeroBytes(k - |n|);
    if n == [] {
      if k > 0 { assert b[0] == 0; }
    } else {
      assert b[0] == n[0] && n[0] in n && b[1..] == n[1..] + ZeroBytes(k - 1 - |n[1..]|);
      assert 0 !in n[1..] by { assert forall i :: 0 <= i < |n[1..]| ==> n[1..][i] in n; }
      PaddedCuts(n[1..], k - 1);
    }
  }

  /** What the switchboard writes for each entry of its log. */
  function Written(e: Entry): seq<byte> {
    match e
    case Accepted(_, _, cd, _, _) => [0] + Short(cd)
    case Refused(_, errno) => [255] + Short(errno)
    case Handed(_, _, _, o, name, flags, cd, data) => Long(o) + Padded(name) + Long(|data|) + Long(flags) + Short(cd) + data
    case Replied(_, _, rval, cd, rcode, data) => [rval] + Short(cd) + Long(rcode) + Long(|data|) + data
    case NoReply(_, errno) => [TPERRNO] + Short(errno)
    case Status(_, errno) => Short(errno)
    case Submitted(_, _, _) => []
    case Returned(_, _, _, _, _) => []
    case Abandoned(_, _) => []
  }

  /** How `tpacall` reads its acknowledgement. */
  datatype Ack = AckClosed | AckRefused(errno: int, rest: seq<byte>) | AckAccepted(cd: int, rest: seq<byte>)

  function ReadAck(b: seq<byte>): Ack {
    if |b| < 1 + IOSHORT then AckClosed
    else if b[0] != 0 then AckRefused(ToShort(b, 1), b[1 + IOSHORT..])
    else AckAccepted(ToShort(b, 1), b[1 + IOSHORT..])
  }

  lemma AckRoundTrip(to: Id, t: Id, cd: Wire.Short, v: Id, flags: int, errno: int, rest: seq<byte>)
    requires 0 <= errno < 0x1_0000
    ensures ReadAck(Written(Refused(to, errno)) + rest) == AckRefused(errno, rest)
    ensures var a := ReadAck(Written(Accepted(to, t, cd, v, flags)) + rest); a.AckAccepted? && AsShort(a.cd) == cd && a.cd != -1 && a.rest == rest
  {
    var b := Written(Refused(to, errno)) + rest;
    assert b[1..1 + IOSHORT] == Short(errno);
    ShortAt(b, 1, errno);
    var d := Written(Accepted(to, t, cd, v, flags)) + rest;
    assert d[1..1 + IOSHORT] == Short(cd);
    ShortAt(d, 1, cd);
  }

  /**
   How `tpgetrply` reads a reply: three bytes, and more only for the two regular return values. A body that
   is cut off, or a negative length, does not count as an error.
   */
  datatype Reply =
    | ReplyClosed
    | ReplyErrno(errno: int, rest: seq<byte>)
    | ReplyGot(rval: byte, cd: int, rcode: int, len: int, data: seq<byte>, rest: seq<byte>)

  const REPLY_HEAD := 1 + IOSHORT
  const REPLY_FULL := 1 + IOSHORT + IOLONG * 2

  function ReadReply(b: seq<byte>): Reply {
    if |b| < REPLY_HEAD then ReplyClosed
    else if b[0] != TPSUCCESS && b[0] != TPFAIL then ReplyErrno(ToShort(b, 1), b[REPLY_HEAD..])
    else if |b| < REPLY_FULL then ReplyClosed
    else
      var len := ToLong(b, REPLY_HEAD + IOLONG);
      var n := Available(len, |b| - REPLY_FULL);
      ReplyGot(b[0], ToShort(b, 1), ToLong(b, REPLY_HEAD), len, b[REPLY_FULL..REPLY_FULL + n], b[REPLY_FULL + n..])
  }

  /** How many of `len` bytes can be read when `have` are there. */
  function Available(len: int, have: nat): (n: nat)
    ensures n <= have
  {
    if len < 0 then 0 else if len < have then len else have
  }

  /** The client reads exactly the reply that was written, exactly when the return value is a regular one. */
  lemma ReplyRoundTrip(to: Id, t: Id, rval: byte, cd: Wire.Short, rcode: int, data: seq<byte>, rest: seq<byte>)
    requires FitsLong(rcode) && |data| < 0x8000_0000
    ensures ReadReply(Written(Replied(to, t, rval, cd, rcode, data)) + rest) == ReplyGot(rval, cd % 0x1_0000, rcode, |data|, data, rest)
      <==> rval == TPSUCCESS || rval == TPFAIL
    ensures AsShort(cd % 0x1_0000) == cd
  {
    hide ToLong;
    var b := Written(Replied(to, t, rval, cd, rcode, data)) + rest;
    assert b[1..1 + IOSHORT] == Short(cd);
    ShortAt(b, 1, cd);
    assert b[REPLY_HEAD..REPLY_HEAD + IOLONG] == Long(rcode);
    LongRoundTrip(b, REPLY_HEAD, rcode);
    assert b[REPLY_HEAD + IOLONG..REPLY_HEAD + IOLONG + IOLONG] == Long(|data|);
    LongRoundTrip(b, REPLY_HEAD + IOLONG, |data|);
    assert b[REPLY_FULL..REPLY_FULL + |data|] == data && b[REPLY_FULL + |data|..] == rest;
  }

  /**
   A reply with any other return value, such as the TPERRNO of a failure that the switchboard reports for a
   worker, goes out in the long form all the same: the client takes the descriptor for the error code and
   leaves the rest of the message unread, before whatever comes next.
   */
  lemma FailureIsMisread(to: Id, t: Id, rval: byte, cd: Wire.Short, rcode: int, data: seq<byte>, rest: seq<byte>)
    requires rval != TPSUCCESS && rval != TPFAIL
    ensures ReadReply(Written(Replied(to, t, rval, cd, rcode, data)) + rest)
      == ReplyErrno(cd % 0x1_0000, Long(rcode) + Long(|data|) + data + rest)
  {
    hide ToLong;
    var b := Written(Replied(to, t, rval, cd, rcode, data)) + rest;
    assert b[1..1 + IOSHORT] == Short(cd);
    ShortAt(b, 1, cd);
    assert b[REPLY_HEAD..] == Long(rcode) + Long(|data|) + data + rest;
  }

  /** The short form, which `senderrno` uses, is read as it was meant. */
  lemma NoReplyRoundTrip(to: Id, errno: int, rest: seq<byte>)
    requires 0 <= errno < 0x1_0000
    ensures ReadReply(Written(NoReply(to, errno)) + rest) == ReplyErrno(errno, rest)
  {
    var b := Written(NoReply(to, errno)) + rest;
    assert b[1..1 + IOSHORT] == Short(errno);
    ShortAt(b, 1, errno);
  }

  /** How `tpadvertise` and `tpunadvertise` read their answer. */
  datatype StatusRead = StatusClosed | StatusGot(errno: int, rest: seq<byte>)

  function ReadStatus(b: seq<byte>): StatusRead {
    if |b| < IOSHORT then StatusClosed else StatusGot(ToShort(b, 0), b[IOSHORT..])
  }

  lemma StatusRoundTrip(to: Id, errno: int, rest: seq<byte>)
    requires 0 <= errno < 0x1_0000
    ensures ReadStatus(Written(Status(to, errno)) + rest) == StatusGot(errno, rest)
  {
    var b := Written(Status(to, errno)) + rest;
    assert b[0..IOSHORT] == Short(errno);
    ShortAt(b, 0, errno);
  }
}
