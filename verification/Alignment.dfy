/** A whole session of the client library: when its reads stay in step with what the switchboard writes. */
module Alignment {
  import opened Sequences
  import opened Wire
  import opened Board
  import opened Runs
  import opened Traces
  import opened Messages
  import opened Codec
  import opened Session
  import opened EndToEnd
  import opened Ledger

  /** What the library call that expects an answer of this kind leaves unread; nothing if the connection ends first. */
  function LeftUnread(k: Kind, b: seq<byte>): Option<seq<byte>> {
    match k
    case AnAck => (match ReadAck(b) case AckClosed => None case AckRefused(_, rest) => Some(rest) case AckAccepted(_, rest) => Some(rest))
    case AReply => (match ReadReply(b) case ReplyClosed => None case ReplyErrno(_, rest) => Some(rest) case ReplyGot(_, _, _, _, _, rest) => Some(rest))
    case SomeWork => (match ReadWork(b) case WorkClosed => None case WorkGot(_, _, _, _, _, _, rest) => Some(rest))
    case AStatus => (match ReadStatus(b) case StatusClosed => None case StatusGot(_, rest) => Some(rest))
  }

  /** What is unread after the calls that expect these answers. */
  function AfterReads(ks: seq<Kind>, b: seq<byte>): Option<seq<byte>> {
    if ks == [] then Some(b)
    else match LeftUnread(ks[0], b)
      case None => None
      case Some(rest) => AfterReads(ks[1..], rest)
  }

  /** Everything that is written for these entries. */
  function AllWritten(q: seq<Entry>): seq<byte> {
    if q == [] then [] else Written(q[0]) + AllWritten(q[1..])
  }

  /** A reply that is written in full though its return value announces the short form. */
  predicate LongForm(e: Entry) {
    e.Replied? && e.rval != TPSUCCESS && e.rval != TPFAIL
  }

  predicate Regular(q: seq<Entry>) {
    forall e :: e in q ==> !LongForm(e)
  }

  /** Each of the first reads ends where a message ends, whatever follows them. */
  predicate Aligned(ks: seq<Kind>, q: seq<Entry>, rest: seq<byte>) {
    |q| <= |ks| && forall n :: 0 <= n <= |q| ==> AfterReads(ks[..n], AllWritten(q) + rest) == Some(AllWritten(q[n..]) + rest)
  }

  ghost predicate Sendable(e: Entry) {
    SizedEntry(e) && exists d :: To(e, d)
  }

  // ---------- one message ----------

  /** A message is read to its end, and no further, exactly when it is not a reply in the long form. */
  lemma OneMessage(e: Entry, rest: seq<byte>)
    requires Sendable(e)
    ensures !LongForm(e) ==> LeftUnread(KindOf(e), Written(e) + rest) == Some(rest)
    ensures LongForm(e) ==> var left := LeftUnread(KindOf(e), Written(e) + rest); left.Some? && |left.value| > |rest|
  {
    hide ReadAck, ReadReply, ReadWork, ReadStatus, Written, FitsLong, Long;
    match e
    case Accepted(to, t, cd, v, flags) => AckRoundTrip(to, t, cd, v, flags, 0, rest);
    case Refused(to, errno) => AckRoundTrip(to, 0, 0, 0, 0, errno, rest);
    case Handed(to, t, v, o, name, flags, cd, data) => WorkRoundTrip(to, t, v, o, name, flags, cd, data, rest);
    case Replied(to, t, rval, cd, rcode, data) =>
      if LongForm(e) { FailureIsMisread(to, t, rval, cd, rcode, data, rest); } else { ReplyRoundTrip(to, t, rval, cd, rcode, data, rest); }
    case NoReply(to, errno) => NoReplyRoundTrip(to, errno, rest);
    case Status(to, errno) => StatusRoundTrip(to, errno, rest);
    case Submitted(_, _, _) => assert false;
    case Returned(_, _, _, _, _) => assert false;
    case Abandoned(_, _) => assert false;
  }

  // ---------- all messages ----------

  lemma OneRead(k: Kind, b: seq<byte>)
    ensures AfterReads([k], b) == LeftUnread(k, b)
  {
    hide LeftUnread;
    assert [k][1..] == [];
    if LeftUnread(k, b).Some? { assert AfterReads([], LeftUnread(k, b).value) == LeftUnread(k, b); }
  }

  lemma ReadsFrom(ks: seq<Kind>, n: nat, b: seq<byte>, left: seq<byte>)
    requires 0 < n <= |ks| && LeftUnread(ks[0], b) == Some(left)
    ensures AfterReads(ks[..n], b) == AfterReads(ks[1..][..n - 1], left)
  {
    hide LeftUnread;
    assert ks[..n][0] == ks[0] && ks[..n][1..] == ks[1..][..n - 1];
  }

  /** After a message that was read to its end, the rest of the session decides. */
  lemma AlignedTail(ks: seq<Kind>, q: seq<Entry>, rest: seq<byte>)
    requires 0 < |q| <= |ks| && LeftUnread(ks[0], AllWritten(q) + rest) == Some(AllWritten(q[1..]) + rest)
    ensures Aligned(ks, q, rest) <==> Aligned(ks[1..], q[1..], rest)
  {
    hide LeftUnread, AllWritten, AfterReads;
    var b, left, tail := AllWritten(q) + rest, AllWritten(q[1..]) + rest, q[1..];
    forall n | 0 < n <= |q|
      ensures AfterReads(ks[..n], b) == AfterReads(ks[1..][..n - 1], left) && q[n..] == tail[n - 1..]
    {
      ReadsFrom(ks, n, b, left);
    }
    if Aligned(ks, q, rest) {
      forall n | 0 <= n <= |tail| ensures AfterReads(ks[1..][..n], left) == Some(AllWritten(tail[n..]) + rest) {
        assert AfterReads(ks[..n + 1], b) == Some(AllWritten(q[n + 1..]) + rest);
        assert q[n + 1..] == tail[n..];
      }
    }
    if Aligned(ks[1..], tail, rest) {
      forall n | 0 <= n <= |q| ensures AfterReads(ks[..n], b) == Some(AllWritten(q[n..]) + rest) {
        if n == 0 {
          NoReads(ks, b);
          assert q[0..] == q;
        } else {
          assert AfterReads(ks[1..][..n - 1], left) == Some(AllWritten(tail[n - 1..]) + rest);
        }
      }
    }
  }

  lemma NoReads(ks: seq<Kind>, b: seq<byte>)
    ensures AfterReads(ks[..0], b) == Some(b)
  {
  }

  /** The reads of a session stay in step with its messages exactly when none of them is a reply in the long form. */
  lemma {:induction false} AlignedExactly(ks: seq<Kind>, q: seq<Entry>, rest: seq<byte>)
    requires |q| <= |ks| && (forall i :: 0 <= i < |q| ==> Sendable(q[i]) && ks[i] == KindOf(q[i]))
    ensures Aligned(ks, q, rest) <==> Regular(q)
    decreases |q|
  {
    hide LeftUnread, AfterReads, Aligned, Sendable, Regular, AllWritten, LongForm, KindOf, Written;
    if q == [] {
      NothingToRead(ks, rest);
      assert Regular(q) by { RegularHead(q); }
    } else {
      var e, tail := q[0], q[1..];
      RegularHead(q);
      WrittenHead(q, rest);
      OneMessage(e, AllWritten(tail) + rest);
      if LongForm(e) {
        OneRead(ks[0], AllWritten(q) + rest);
        StepsOut(ks, q, rest);
      } else {
        AlignedTail(ks, q, rest);
        AlignedExactly(ks[1..], tail, rest);
      }
    }
  }

  lemma RegularHead(q: seq<Entry>)
    ensures Regular(q) <==> q == [] || (!LongForm(q[0]) && Regular(q[1..]))
  {
    if q != [] { assert forall x :: x in q <==> x == q[0] || x in q[1..]; }
  }

  lemma WrittenHead(q: seq<Entry>, rest: seq<byte>)
    requires q != []
    ensures AllWritten(q) + rest == Written(q[0]) + (AllWritten(q[1..]) + rest)
  {
  }

  lemma NothingToRead(ks: seq<Kind>, rest: seq<byte>)
    ensures Aligned(ks, [], rest)
  {
    NoReads(ks, AllWritten([]) + rest);
  }

  lemma StepsOut(ks: seq<Kind>, q: seq<Entry>, rest: seq<byte>)
    requires 0 < |q| <= |ks| && AfterReads([ks[0]], AllWritten(q) + rest) != Some(AllWritten(q[1..]) + rest)
    ensures !Aligned(ks, q, rest)
  {
    hide AfterReads, AllWritten;
    assert ks[..1] == [ks[0]];
  }

  // ---------- whole runs ----------

  lemma {:induction false} KindsAt(q: seq<Entry>, i: nat)
    requires i < |q|
    ensures Kinds(q)[i] == KindOf(q[i])
    decreases |q|
  {
    if i < |q| - 1 { KindsAt(q[..|q| - 1], i); }
  }

  lemma {:induction false} OutboxIs(log: seq<Entry>, d: Id, e: Entry)
    ensures e in Outbox(log, d) <==> e in log && To(e, d)
    decreases |log|
  {
    hide To;
    if log != [] {
      var head, last := log[..|log| - 1], Last(log);
      OutboxIs(head, d, e);
      assert log == head + [last];
    }
  }

  lemma OutboxSendable(fx: Fixes, s: Board, d: Id, i: nat)
    requires Reachable(fx, s) && i < |Outbox(s.log, d)|
    ensures Sendable(Outbox(s.log, d)[i])
  {
    hide Reachable, SizedEntry, To, Outbox;
    var e := Outbox(s.log, d)[i];
    OutboxIs(s.log, d, e);
    var j :| 0 <= j < |s.log| && s.log[j] == e;
    WritesFit(fx, s, j);
  }

  /** The answers that `c` has asked for in the whole run. */
  function AskedBy(ss: seq<Board>, es: seq<Event>, c: Id): seq<Kind>
    requires |es| < |ss|
  {
    Requests(Handled(ss, es, |es|, c))
  }

  /**
   Over any good run: a client that reads one answer after each of its requests, as the library does, reads
   every message to its end and no further exactly when no reply in the long form was written to it.
   */
  lemma SessionsStayAligned(fx: Fixes, ss: seq<Board>, es: seq<Event>, c: Id, rest: seq<byte>)
    requires Trace(fx, ss, es)
    ensures var q := Outbox(ss[|es|].log, c);
      && Kinds(q) <= AskedBy(ss, es, c)
      && (c in ss[|es|].clients ==> AskedBy(ss, es, c) == Kinds(q) + Owed(ss[|es|], c, c, []))
      && (Aligned(AskedBy(ss, es, c), q, rest) <==> Regular(q))
  {
    hide GoodRun, Run, Trace, Reachable, Handled, Requests, Outbox, Aligned, Regular, Sendable, Owed;
    TraceStarts(fx, ss, es);
    var s := ss[|es|];
    TraceRuns(fx, ss, es);
    AnswersMatchRequests(fx, ss, es, |es|, c);
    var q, ks := Outbox(s.log, c), AskedBy(ss, es, c);
    assert Paid(s, c) == Kinds(q);
    assert Kinds(q) <= ks;
    forall i | 0 <= i < |q| ensures Sendable(q[i]) && ks[i] == KindOf(q[i]) {
      OutboxSendable(fx, s, c, i);
      KindsAt(q, i);
    }
    AlignedExactly(ks, q, rest);
  }

  /** Every worker returned one of the two values that `tpreturn` sends. */
  predicate ReturnsRegular(log: seq<Entry>) {
    forall i :: 0 <= i < |log| && log[i].Returned? ==> log[i].rval == TPSUCCESS || log[i].rval == TPFAIL
  }

  /**
   Among programs that use the library, a client's reads get out of step only by a TPERRNO reply that was
   written because a worker had left while it executed one of the client's calls.
   */
  lemma OutOfStepMeansDeparture(fx: Fixes, ss: seq<Board>, es: seq<Event>, c: Id, rest: seq<byte>) returns (j: nat, m: nat, w: Id)
    requires Trace(fx, ss, es)
    requires ReturnsRegular(ss[|es|].log) && !Aligned(AskedBy(ss, es, c), Outbox(ss[|es|].log, c), rest)
    ensures j < |ss[|es|].log| && ss[|es|].log[j].Replied? && ss[|es|].log[j].to == c && ss[|es|].log[j].rval == TPERRNO
    ensures m < |es| && LeavesExecuting(ss[m], es[m], ss[m + 1], w, ss[|es|].log[j].call)
  {
    hide GoodRun, Run, Trace, Handled, Requests, Outbox, Aligned, LeavesExecuting;
    TraceStarts(fx, ss, es);
    SessionsStayAligned(fx, ss, es, c, rest);
    var log := ss[|es|].log;
    var e :| e in Outbox(log, c) && LongForm(e);
    OutboxIs(log, c, e);
    j :| 0 <= j < |log| && log[j] == e;
    forall d ensures Returned(d, e.call, e.rval, e.rcode, e.data) !in log[..j] {
      NotReturned(log, j, d, e);
    }
    m, w := FailureMeansDeparture(fx, ss, es, j);
  }

  lemma NotReturned(log: seq<Entry>, j: nat, d: Id, e: Entry)
    requires ReturnsRegular(log) && j <= |log| && LongForm(e)
    ensures Returned(d, e.call, e.rval, e.rcode, e.data) !in log[..j]
  {
    assert forall i :: 0 <= i < j ==> log[..j][i] == log[i];
  }
}
