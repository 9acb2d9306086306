/** The client library: one connection to the switchboard, and the calls that write to and read from it. */
module Session {
  import opened Sequences
  import opened Wire
  import opened Board
  import opened Codec

  const TX_OK := 0
  const TX_FAIL := -7
  const TPEINVAL := 4
  const TPESVCFAIL := 11
  const TPESYSTEM := 12

  // ---------- the work message ----------

  const WORK_HEAD := NAME_LENGTH + IOLONG * 2 + IOSHORT

  datatype Work = WorkClosed | WorkGot(opaqueValue: int, name: seq<byte>, len: int, flags: int, cd: int, data: seq<byte>, rest: seq<byte>)

  /** The fields of a work message, each read where it stands. */
  function ReadWork(b: seq<byte>): Work {
    if |b| < IOLONG + WORK_HEAD then WorkClosed
    else
      var h, rest := b[IOLONG..IOLONG + WORK_HEAD], b[IOLONG + WORK_HEAD..];
      var len := ToLong(h, NAME_LENGTH);
      if len > |rest| then WorkClosed
      else
        var n := Available(len, |rest|);
        WorkGot(ToLong(b, 0), h[..NAME_LENGTH], len, ToLong(h, NAME_LENGTH + IOLONG), ToShort(h, NAME_LENGTH + IOLONG * 2), rest[..n], rest[n..])
  }

  function WorkHead(name: Name, len: int, flags: int, cd: int): (h: seq<byte>)
    ensures |h| == WORK_HEAD
  {
    Padded(name) + Long(len) + Long(flags) + Codec.Short(cd)
  }

  lemma WorkHeadRoundTrip(name: Name, len: int, flags: int, cd: int)
    requires FitsLong(len) && FitsLong(flags)
    ensures var h := WorkHead(name, len, flags, cd);
      && h[..NAME_LENGTH] == Padded(name) && ToLong(h, NAME_LENGTH) == len && ToLong(h, NAME_LENGTH + IOLONG) == flags
      && ToShort(h, NAME_LENGTH + IOLONG * 2) == cd % 0x1_0000
  {
    hide ToLong, ToShort, CutName;
    var h := WorkHead(name, len, flags, cd);
    assert h[NAME_LENGTH..NAME_LENGTH + IOLONG] == Long(len);
    assert h[NAME_LENGTH + IOLONG..NAME_LENGTH + IOLONG + IOLONG] == Long(flags);
    assert h[NAME_LENGTH + IOLONG * 2..NAME_LENGTH + IOLONG * 2 + IOSHORT] == Codec.Short(cd);
    LongRoundTrip(h, NAME_LENGTH, len);
    LongRoundTrip(h, NAME_LENGTH + IOLONG, flags);
    ShortAt(h, NAME_LENGTH + IOLONG * 2, cd);
  }

  /** A worker reads exactly what the switchboard handed it. */
  lemma WorkRoundTrip(to: Id, t: Id, v: Id, o: int, name: Name, flags: int, cd: Wire.Short, data: seq<byte>, rest: seq<byte>)
    requires FitsLong(o) && FitsLong(flags) && |data| < 0x8000_0000
    ensures var w := ReadWork(Written(Handed(to, t, v, o, name, flags, cd, data)) + rest);
      && w == WorkGot(o, Padded(name), |data|, flags, cd % 0x1_0000, data, rest)
      && CutName(w.name) == name && AsShort(w.cd) == cd && w.cd != -1
  {
    hide ToLong, ToShort, CutName, WorkHead, Long, Codec.Short;
    WorkHeadRoundTrip(name, |data|, flags, cd);
    PaddedCuts(name, NAME_LENGTH);
    var b := Written(Handed(to, t, v, o, name, flags, cd, data)) + rest;
    var h := WorkHead(name, |data|, flags, cd);
    WorkLayout(to, t, v, o, name, flags, cd, data, rest);
    LongRoundTrip(b, 0, o);
    assert b[IOLONG..IOLONG + WORK_HEAD] == h && b[IOLONG + WORK_HEAD..] == data + rest;
    assert (data + rest)[..|data|] == data && (data + rest)[|data|..] == rest;
  }

  lemma WorkLayout(to: Id, t: Id, v: Id, o: int, name: Name, flags: int, cd: Wire.Short, data: seq<byte>, rest: seq<byte>)
    ensures var b := Written(Handed(to, t, v, o, name, flags, cd, data)) + rest;
      b == Long(o) + (WorkHead(name, |data|, flags, cd) + (data + rest)) && b[0..IOLONG] == Long(o)
  {
    hide Long, Codec.Short;
  }

  // ---------- decoding in place ----------

  /** Where `len`, `flags` and `cd` are in a TPSVCINFO, and how long a long is. */
  datatype Layout = Layout(lenAt: nat, flagsAt: nat, cdAt: nat, longSize: nat, size: nat)

  const ILP32 := Layout(20, 24, 28, 4, 32)
  const LP64 := Layout(24, 32, 40, 8, 48)
  const INT_SIZE := 4

  function LittleEndian(v: int, n: nat): (r: seq<byte>)
    ensures |r| == n
    decreases n
  {
    if n == 0 then [] else [v % 256] + LittleEndian(v / 256, n - 1)
  }

  /** The signed number in a field. */
  function Field(b: seq<byte>): int
    requires b != []
  {
    if |b| == 1 then (if b[0] < 128 then b[0] as int else b[0] as int - 256)
    else b[0] as int + 256 * Field(b[1..])
  }

  predicate FitsIn(v: int, n: nat)
    requires n > 0
    decreases n
  {
    if n == 1 then -128 <= v < 128 else FitsIn(v / 256, n - 1)
  }

  lemma {:induction false} FieldRoundTrip(v: int, n: nat)
    requires n > 0
    ensures Field(LittleEndian(v, n)) == v <==> FitsIn(v, n)
    decreases n
  {
    if n > 1 {
      FieldRoundTrip(v / 256, n - 1);
      assert LittleEndian(v, n)[1..] == LittleEndian(v / 256, n - 1);
    } else {
      assert LittleEndian(v, 1) == [v % 256];
    }
  }

  lemma LongsFit(v: int)
    requires FitsLong(v)
    ensures FitsIn(v, 4) && FitsIn(v, 8)
  {
    var v1 := v / 256;
    var v2 := v1 / 256;
    var v3 := v2 / 256;
    assert FitsIn(v3, 1);
    assert FitsIn(v2, 2) && FitsIn(v1, 3) && FitsIn(v, 4);
    var v4 := v3 / 256;
    assert v4 == 0 || v4 == -1;
    assert FitsIn(v4, 1) && FitsIn(v4, 2) && FitsIn(v4, 3) && FitsIn(v4, 4);
    assert FitsIn(v3, 5) && FitsIn(v2, 6) && FitsIn(v1, 7);
  }

  /** An assignment to a field of the structure. */
  method Store(m: array<byte>, at: nat, n: nat, v: int)
    requires at + n <= m.Length
    modifies m
    ensures m[at..at + n] == LittleEndian(v, n)
    ensures forall i :: 0 <= i < m.Length && !(at <= i < at + n) ==> m[i] == old(m[i])
    decreases n
  {
    if n > 0 {
      m[at] := v % 256;
      Store(m, at + 1, n - 1, v / 256);
      assert m[at..at + n] == [m[at]] + m[at + 1..at + n];
    }
  }

  /** The number a field of the structure holds. */
  function FieldAt(m: seq<byte>, at: nat, n: nat): int
    requires 0 < n && at + n <= |m|
  {
    Field(m[at..at + n])
  }

  /**
   `tpservice` converts the message inside the structure it was read into, from the end towards the start:
   each field is read before the field that overwrites it is stored.
   */
  method DecodeInPlace(m: array<byte>, lay: Layout)
    requires lay == ILP32 || lay == LP64
    requires m.Length == lay.size
    modifies m
    ensures m[..NAME_LENGTH] == old(m[..NAME_LENGTH])
    ensures FieldAt(m[..], lay.cdAt, INT_SIZE) == ToShort(old(m[..]), NAME_LENGTH + IOLONG * 2)
    ensures FieldAt(m[..], lay.flagsAt, lay.longSize) == ToLong(old(m[..]), NAME_LENGTH + IOLONG)
    ensures FieldAt(m[..], lay.lenAt, lay.longSize) == ToLong(old(m[..]), NAME_LENGTH)
  {
    hide ToLong, ToShort, LittleEndian, Field, FitsIn;
    ghost var wire := m[..];
    var cd := ToShort(m[..], NAME_LENGTH + IOLONG * 2);
    StoreField(m, lay.cdAt, INT_SIZE, cd);
    ghost var m1 := m[..];
    SameLong(wire, m1, NAME_LENGTH + IOLONG);
    var flags := ToLong(m[..], NAME_LENGTH + IOLONG);
    StoreField(m, lay.flagsAt, lay.longSize, flags);
    ghost var m2 := m[..];
    SameLong(wire, m2, NAME_LENGTH);
    var len := ToLong(m[..], NAME_LENGTH);
    StoreField(m, lay.lenAt, lay.longSize, len);
    assert m[..][lay.cdAt..lay.cdAt + INT_SIZE] == m1[lay.cdAt..lay.cdAt + INT_SIZE];
    assert m[..][lay.flagsAt..lay.flagsAt + lay.longSize] == m2[lay.flagsAt..lay.flagsAt + lay.longSize];
  }

  lemma SameLong(a: seq<byte>, b: seq<byte>, at: nat)
    requires at + IOLONG <= |a| == |b| && forall i :: at <= i < at + IOLONG ==> a[i] == b[i]
    ensures ToLong(a, at) == ToLong(b, at)
  {
  }

  /** Storing a number that fits a field, and what it leaves alone. */
  method StoreField(m: array<byte>, at: nat, n: nat, v: int)
    requires at + n <= m.Length && (n == 4 || n == 8) && FitsLong(v)
    modifies m
    ensures FieldAt(m[..], at, n) == v
    ensures forall i :: 0 <= i < m.Length && !(at <= i < at + n) ==> m[i] == old(m[i])
  {
    hide LittleEndian, Field, FitsIn;
    Store(m, at, n, v);
    LongsFit(v);
    FieldRoundTrip(v, n);
    assert m[..][at..at + n] == m[at..at + n];
  }

  // ---------- the calls ----------

  class Session {
    var sent: seq<byte>           // everything written to the switchboard
    var incoming: seq<byte>       // what the switchboard has written or will write, and is not read yet
    var tperrno: int
    var tpurcode: int

    method TxWrite(b: seq<byte>)
      modifies this`sent
      ensures sent == old(sent) + b
    {
      sent := sent + b;
    }

    method TxWriteS(v: int)
      modifies this`sent
      ensures sent == old(sent) + Codec.Short(v)
    {
      TxWrite([v % 256]);
      TxWrite([v / 256 % 256]);
    }

    method TxWriteL(v: int)
      modifies this`sent
      ensures sent == old(sent) + Long(v)
    {
      TxWriteS(v % 0x1_0000);
      TxWriteS(v / 0x1_0000 % 0x1_0000);
    }

    /** `read`: some of the bytes that are there; none at the end of file. */
    method SysRead(n: nat) returns (b: seq<byte>)
      requires n > 0
      modifies this`incoming
      ensures b + incoming == old(incoming) && |b| <= n && (b == [] <==> old(incoming) == [])
    {
      if incoming == [] { return []; }
      var k: nat :| 1 <= k <= n && k <= |incoming|;
      b := incoming[..k];
      incoming := incoming[k..];
    }

    /** The loop that reads exactly `len` bytes, however they arrive, or fails at the end of file. */
    method TxRead(len: int) returns (ok: bool, buf: seq<byte>)
      modifies this`incoming
      ensures buf + incoming == old(incoming) && |buf| == Available(len, |old(incoming)|)
      ensures ok <==> len <= |old(incoming)|
    {
      buf := [];
      var left := len;
      while left > 0
        invariant buf + incoming == old(incoming) && (len >= 0 ==> left >= 0 && |buf| + left == len) && (len < 0 ==> left == len && buf == [])
      {
        var b := SysRead(left);
        if b == [] { return false, buf; }
        buf := buf + b;
        left := left - |b|;
      }
      ok := true;
    }

    /** The name, unless it is null, is passed as the fifteen bytes that `tx_write` sends. */
    method TpAcall(name: Option<seq<byte>>, data: seq<byte>, flags: int) returns (r: int)
      requires name.Some? ==> NameField(name.value)
      modifies this
      ensures name.None? ==> r == -1 && tperrno == TPEINVAL && sent == old(sent) && incoming == old(incoming) && tpurcode == old(tpurcode)
      ensures name.Some? ==> match ReadAck(old(incoming))
        case AckClosed => r == -1 && tperrno == TPESYSTEM && tpurcode == TX_FAIL && sent == old(sent) + EncodeCall(name.value, |data|, flags)
        case AckRefused(e, rest) => r == -1 && tperrno == e && incoming == rest && sent == old(sent) + EncodeCall(name.value, |data|, flags)
        case AckAccepted(cd, rest) =>
          r == cd && tperrno == old(tperrno) && incoming == rest && sent == old(sent) + EncodeCall(name.value, |data|, flags) + data
    {
      if name.None? {
        tperrno := TPEINVAL;
        return -1;
      }
      var svc := name.value;
      TxWrite([TPTCALL]);
      TxWrite(svc);
      TxWriteL(|data|);
      TxWriteL(flags);
      assert sent == old(sent) + EncodeCall(svc, |data|, flags);
      ghost var all := incoming;
      var ok, buf := TxRead(1 + IOSHORT);
      tpurcode := if ok then TX_OK else TX_FAIL;
      if !ok {
        tperrno := TPESYSTEM;
        return -1;
      }
      assert buf == all[..1 + IOSHORT] && incoming == all[1 + IOSHORT..];
      if buf[0] != 0 {
        tperrno := ToShort(buf, 1);
        return -1;
      }
      TxWrite(data);
      r := ToShort(buf, 1);
    }

    /**
     The descriptor, the data pointer and the length are absent for null pointers; the length is that of the
     caller's buffer, must not be zero, and becomes that of the reply. `r` is also stored as the descriptor.
     */
    method TpGetReply(cd: Option<int>, hasData: bool, len: Option<int>, flags: int) returns (r: int, data: seq<byte>, newLen: Option<int>)
      modifies this
      ensures cd.None? || !hasData || len.None? || len.value == 0 ==>
        r == -1 && tperrno == TPEINVAL && sent == old(sent) && incoming == old(incoming) && tpurcode == old(tpurcode) && newLen == len
      ensures cd.Some? && hasData && len.Some? && len.value != 0 ==> sent == old(sent) + EncodeGetReply(cd.value, flags)
      ensures cd.Some? && hasData && len.Some? && len.value != 0 ==> match ReadReply(old(incoming))
        case ReplyClosed => r == -1 && tperrno == TPESYSTEM && tpurcode == TX_FAIL && newLen == len
        case ReplyErrno(e, rest) => r == -1 && tperrno == e && incoming == rest && newLen == len
        case ReplyGot(rval, d, rcode, n, body, rest) =>
          && r == d && data == body && newLen == Some(n) && incoming == rest && tpurcode == rcode
          && tperrno == if rval == TPFAIL then TPESVCFAIL else 0
    {
      hide ToLong, ToShort, Long, Codec.Short;
      data, newLen := [], len;
      if cd.None? || !hasData || len.None? || len.value == 0 {
        tperrno := TPEINVAL;
        return -1, data, newLen;
      }
      TxWrite([TPTGRPLY]);
      TxWriteS(cd.value);
      TxWriteL(flags);
      assert sent == old(sent) + EncodeGetReply(cd.value, flags);
      ghost var all := incoming;
      var ok, buf1 := TxRead(REPLY_HEAD);
      tpurcode := if ok then TX_OK else TX_FAIL;
      if !ok {
        tperrno := TPESYSTEM;
        return -1, data, newLen;
      }
      assert buf1 == all[..REPLY_HEAD] && incoming == all[REPLY_HEAD..];
      if buf1[0] != TPSUCCESS && buf1[0] != TPFAIL {
        WindowShort(all, buf1, incoming);
        tperrno := ToShort(buf1, 1);
        return -1, data, newLen;
      }
      var buf2: seq<byte>;
      ok, buf2 := TxRead(IOLONG + IOLONG);
      tpurcode := if ok then TX_OK else TX_FAIL;
      if !ok {
        tperrno := TPESYSTEM;
        return -1, data, newLen;
      }
      assert all == buf1 + (buf2 + incoming) && all == (buf1 + buf2) + incoming;
      Windows(all, buf1, buf2, incoming);
      tperrno := if buf1[0] == TPFAIL then TPESVCFAIL else 0;
      tpurcode := ToLong(buf2, 0);
      var n := ToLong(buf2, IOLONG);
      newLen := Some(n);
      if n != 0 {
        ok, data := TxRead(n);
      }
      r := ToShort(buf1, 1);
    }

    /** The two bytes that answer a `tpadvertise` or `tpunadvertise`. */
    method Acknowledged() returns (r: int)
      modifies this`incoming, this`tperrno, this`tpurcode
      ensures match ReadStatus(old(incoming))
        case StatusClosed => r == -1 && tperrno == TPESYSTEM && tpurcode == TX_FAIL
        case StatusGot(e, rest) =>
          tpurcode == TX_OK && incoming == rest && if e == 0 then r == 0 && tperrno == old(tperrno) else r == -1 && tperrno == e
    {
      ghost var all := incoming;
      var ok, buf := TxRead(IOSHORT);
      tpurcode := if ok then TX_OK else TX_FAIL;
      if !ok {
        tperrno := TPESYSTEM;
        return -1;
      }
      assert buf == all[..IOSHORT] && incoming == all[IOSHORT..];
      if ToShort(buf, 0) != 0 {
        tperrno := ToShort(buf, 0);
        return -1;
      }
      r := 0;
    }

    /** The service name and the routine are absent for null pointers. */
    method TpAdvertise(name: Option<seq<byte>>, routine: Option<int>) returns (r: int)
      requires name.Some? ==> NameField(name.value)
      modifies this
      ensures name.None? || routine.None? ==>
        r == -1 && tperrno == TPEINVAL && sent == old(sent) && incoming == old(incoming) && tpurcode == old(tpurcode)
      ensures name.Some? && routine.Some? ==> sent == old(sent) + EncodeAdvertise(name.value, routine.value)
      ensures name.Some? && routine.Some? ==> match ReadStatus(old(incoming))
        case StatusClosed => r == -1 && tperrno == TPESYSTEM && tpurcode == TX_FAIL
        case StatusGot(e, rest) =>
          tpurcode == TX_OK && incoming == rest && if e == 0 then r == 0 && tperrno == old(tperrno) else r == -1 && tperrno == e
    {
      if name.None? || routine.None? {
        tperrno := TPEINVAL;
        return -1;
      }
      TxWrite([TPTADVT]);
      TxWrite(name.value);
      TxWriteL(routine.value);
      r := Acknowledged();
    }

    method TpUnadvertise(name: Option<seq<byte>>) returns (r: int)
      requires name.Some? ==> NameField(name.value)
      modifies this
      ensures name.None? ==>
        r == -1 && tperrno == TPEINVAL && sent == old(sent) && incoming == old(incoming) && tpurcode == old(tpurcode)
      ensures name.Some? ==> sent == old(sent) + EncodeUnadvertise(name.value)
      ensures name.Some? ==> match ReadStatus(old(incoming))
        case StatusClosed => r == -1 && tperrno == TPESYSTEM && tpurcode == TX_FAIL
        case StatusGot(e, rest) =>
          tpurcode == TX_OK && incoming == rest && if e == 0 then r == 0 && tperrno == old(tperrno) else r == -1 && tperrno == e
    {
      if name.None? {
        tperrno := TPEINVAL;
        return -1;
      }
      TxWrite([TPTUADV]);
      TxWrite(name.value);
      r := Acknowledged();
    }

    /** `tpreturn` inside a service routine; `data` is absent for a null pointer. */
    method TpReturn(rval: int, rcode: int, data: Option<seq<byte>>)
      modifies this`sent
      ensures sent == old(sent) + EncodeReturn(if rval == 1 || rval == 2 then rval else TPFAIL, rcode, if data.Some? then data.value else [])
    {
      hide Long;
      TxWrite([TPTRETN]);
      TxWrite([if rval != 1 && rval != 2 then TPFAIL else rval]);
      TxWriteL(rcode);
      if data.None? {
        TxWriteL(0);
      } else {
        TxWriteL(|data.value|);
        TxWrite(data.value);
      }
    }

    /** The part of `tpservice` that asks for work and reads it, up to the call of the service routine. */
    method TpService() returns (w: Work)
      modifies this
      ensures sent == old(sent) + [TPTWORK] && w == ReadWork(old(incoming))
      ensures if w.WorkClosed? then tperrno == TPESYSTEM else incoming == w.rest
    {
      TxWrite([TPTWORK]);
      ghost var all := incoming;
      var ok, opaqueBytes := TxRead(IOLONG);
      if !ok {
        tperrno, tpurcode := TPESYSTEM, TX_FAIL;
        return WorkClosed;
      }
      var h: seq<byte>;
      ok, h := TxRead(WORK_HEAD);
      if !ok {
        tperrno, tpurcode := TPESYSTEM, TX_FAIL;
        return WorkClosed;
      }
      ghost var body := incoming;
      assert all == opaqueBytes + (h + body) && all[IOLONG..IOLONG + WORK_HEAD] == h && all[IOLONG + WORK_HEAD..] == body;
      assert ToLong(all, 0) == ToLong(opaqueBytes, 0) by { WindowLong(all, opaqueBytes, h + body); }
      var len := ToLong(h, NAME_LENGTH);
      var data: seq<byte>;
      ok, data := TxRead(len);
      tpurcode := if ok then TX_OK else TX_FAIL;
      if !ok {
        tperrno := TPESYSTEM;
        return WorkClosed;
      }
      assert body == data + incoming && data == body[..|data|] && incoming == body[|data|..];
      w := WorkGot(ToLong(opaqueBytes, 0), h[..NAME_LENGTH], len, ToLong(h, NAME_LENGTH + IOLONG),
                   ToShort(h, NAME_LENGTH + IOLONG * 2), data, incoming);
    }
  }

  lemma WindowShort(all: seq<byte>, buf1: seq<byte>, rest: seq<byte>)
    requires all == buf1 + rest && |buf1| == REPLY_HEAD
    ensures all[0] == buf1[0] && ToShort(all, 1) == ToShort(buf1, 1)
  {
  }

  lemma WindowLong(all: seq<byte>, a: seq<byte>, b: seq<byte>)
    requires all == a + b && |a| >= IOLONG
    ensures ToLong(all, 0) == ToLong(a, 0)
  {
  }

  /** The two buffers of `tpgetrply` are windows on one stream. */
  lemma Windows(all: seq<byte>, buf1: seq<byte>, buf2: seq<byte>, rest: seq<byte>)
    requires all == buf1 + (buf2 + rest) && |buf1| == REPLY_HEAD && |buf2| == IOLONG + IOLONG
    ensures all[0] == buf1[0] && ToShort(all, 1) == ToShort(buf1, 1)
    ensures ToLong(all, REPLY_HEAD) == ToLong(buf2, 0) && ToLong(all, REPLY_HEAD + IOLONG) == ToLong(buf2, IOLONG)
    ensures all[REPLY_FULL..] == rest && |all| == REPLY_FULL + |rest|
  {
  }
}
