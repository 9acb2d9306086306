/** The log: what was written to whom, and why it was right to write it. */
module History {
  import opened Wire
  import opened Board
  import opened Invariant

  /** The worker is done with the call. */
  predicate Ends(e: Entry) {
    e.Returned? || e.Abandoned?
  }

  /** Entries about a call. */
  predicate AboutCall(e: Entry) {
    e.Accepted? || e.Submitted? || e.Handed? || Ends(e) || e.Replied?
  }

  /** Two entries that must not both be in a log: each thing happens to a call at most once. */
  predicate Clash(a: Entry, b: Entry) {
    AboutCall(a) && AboutCall(b) && a.call == b.call
    && ((a.Accepted? && b.Accepted?) || (a.Submitted? && b.Submitted?) || (a.Handed? && b.Handed?)
        || (Ends(a) && Ends(b)) || (a.Replied? && b.Replied?))
  }

  predicate WasSubmitted(log: seq<Entry>, t: Id) {
    exists i :: 0 <= i < |log| && log[i].Submitted? && log[i].call == t
  }

  predicate WasHanded(log: seq<Entry>, t: Id) {
    exists i :: 0 <= i < |log| && log[i].Handed? && log[i].call == t
  }

  predicate WasHandedTo(log: seq<Entry>, t: Id, w: Id) {
    exists i :: 0 <= i < |log| && log[i].Handed? && log[i].call == t && log[i].to == w
  }

  predicate WasEnded(log: seq<Entry>, t: Id) {
    exists i :: 0 <= i < |log| && Ends(log[i]) && log[i].call == t
  }

  predicate WasReplied(log: seq<Entry>, t: Id) {
    exists i :: 0 <= i < |log| && log[i].Replied? && log[i].call == t
  }

  /** The reply is what the worker returned, or says that the worker failed, and it left. */
  ghost predicate Explained(log: seq<Entry>, t: Id, rval: byte, rcode: int, data: seq<byte>) {
    (exists w :: Returned(w, t, rval, rcode, data) in log) || (rval == TPERRNO && rcode == TPESVCERR && exists w :: Abandoned(w, t) in log)
  }

  /** After `before`, the entry `e` is right: nothing happens twice, and everything has its cause. */
  ghost predicate Fair(before: seq<Entry>, e: Entry) {
    && (forall i :: 0 <= i < |before| ==> !Clash(before[i], e))
    && (match e
        case Submitted(c, t, _) => exists cd, v, flags :: Accepted(c, t, cd, v, flags) in before
        case Handed(_, t, v, _, _, flags, cd, data) =>
          exists c :: Submitted(c, t, data) in before && Accepted(c, t, cd, v, flags) in before
        case Returned(w, t, _, _, _) => WasHandedTo(before, t, w)
        case Abandoned(w, t) => WasHandedTo(before, t, w)
        case Replied(c, t, rval, cd, rcode, data) =>
          (exists v, flags :: Accepted(c, t, cd, v, flags) in before) && WasHanded(before, t) && Explained(before, t, rval, rcode, data)
        case _ => true)
  }

  ghost predicate Sound(log: seq<Entry>) {
    forall j :: 0 <= j < |log| ==> Fair(log[..j], log[j])
  }

  lemma SoundAppend(log: seq<Entry>, e: Entry)
    requires Sound(log) && Fair(log, e)
    ensures Sound(log + [e])
  {
    hide Fair;
    var r := log + [e];
    forall j | 0 <= j < |r| ensures Fair(r[..j], r[j]) {
      if j < |log| { assert r[..j] == log[..j]; } else { assert r[..j] == log; }
    }
  }

  ghost predicate LogSerial(s: Board) {
    forall i :: 0 <= i < |s.log| && AboutCall(s.log[i]) ==> s.log[i].call < s.next
  }

  /** What the log says about a live call. */
  ghost predicate CallLogged(s: Board, t: Id)
    requires t in s.calls
  {
    var k := s.calls[t];
    && AcceptEntry(k, t) in s.log && !WasReplied(s.log, t)
    && (Arriving(s, t) ==> !WasSubmitted(s.log, t) && !WasHanded(s.log, t) && !WasEnded(s.log, t))
    && (Queued(s, t) ==> Submitted(k.client, t, k.data) in s.log && !WasHanded(s.log, t) && !WasEnded(s.log, t))
    && (k.executor.Some? ==> WasHandedTo(s.log, t, k.executor.value) && !WasEnded(s.log, t))
    && (Done(s, t) ==> WasHanded(s.log, t) && Explained(s.log, t, k.rval, k.rcode, k.data))
  }

  ghost predicate LogInv(s: Board) {
    Sound(s.log) && LogSerial(s) && forall t :: t in s.calls ==> CallLogged(s, t)
  }

  // ---------- events that are not about a call ----------

  predicate StageKept(s: Board, r: Board, t: Id) {
    && t in s.calls && t in r.calls && r.calls[t] == s.calls[t]
    && (Arriving(r, t) ==> Arriving(s, t))
    && (Queued(r, t) ==> Queued(s, t))
    && (Done(r, t) ==> Done(s, t))
  }

  /** No call but those in `x` is new, changed, or at a new place. */
  ghost predicate Calm(s: Board, r: Board, x: set<Id>) {
    forall t :: t in r.calls && t !in x ==> StageKept(s, r, t)
  }

  /** `r.log` continues `s.log` with entries about no call but `t`. */
  ghost predicate Adds(s: Board, r: Board, t: Id) {
    && |s.log| <= |r.log| && (forall i :: 0 <= i < |s.log| ==> r.log[i] == s.log[i])
    && (forall i :: |s.log| <= i < |r.log| && AboutCall(r.log[i]) ==> r.log[i].call == t)
  }

  lemma CalmTransitive(a: Board, b: Board, r: Board, x: set<Id>)
    requires Calm(a, b, x) && Calm(b, r, x)
    ensures Calm(a, r, x)
  {
    hide Arriving, Queued, Done;
    forall t | t in r.calls && t !in x ensures StageKept(a, r, t) {
      assert StageKept(b, r, t);
      assert StageKept(a, b, t);
    }
  }

  /** Entries about another call say nothing about `u`. */
  lemma AddsKeepsFacts(s: Board, r: Board, t: Id, u: Id)
    requires Adds(s, r, t) && u != t
    ensures forall e :: e in s.log ==> e in r.log
    ensures WasSubmitted(r.log, u) <==> WasSubmitted(s.log, u)
    ensures WasHanded(r.log, u) <==> WasHanded(s.log, u)
    ensures WasEnded(r.log, u) <==> WasEnded(s.log, u)
    ensures WasReplied(r.log, u) <==> WasReplied(s.log, u)
    ensures forall w :: WasHandedTo(s.log, u, w) ==> WasHandedTo(r.log, u, w)
  {
    forall e | e in s.log ensures e in r.log {
      var i :| 0 <= i < |s.log| && s.log[i] == e;
      assert r.log[i] == e;
    }
    if WasSubmitted(s.log, u) { var i :| 0 <= i < |s.log| && s.log[i].Submitted? && s.log[i].call == u; assert r.log[i] == s.log[i]; }
    if WasHanded(s.log, u) { var i :| 0 <= i < |s.log| && s.log[i].Handed? && s.log[i].call == u; assert r.log[i] == s.log[i]; }
    if WasEnded(s.log, u) { var i :| 0 <= i < |s.log| && Ends(s.log[i]) && s.log[i].call == u; assert r.log[i] == s.log[i]; }
    if WasReplied(s.log, u) { var i :| 0 <= i < |s.log| && s.log[i].Replied? && s.log[i].call == u; assert r.log[i] == s.log[i]; }
    forall w | WasHandedTo(s.log, u, w) ensures WasHandedTo(r.log, u, w) {
      var i :| 0 <= i < |s.log| && s.log[i].Handed? && s.log[i].call == u && s.log[i].to == w;
      assert r.log[i] == s.log[i];
    }
  }

  /** A calm change that logs nothing about `u` keeps what the log says about it. */
  lemma CallLoggedKept(s: Board, r: Board, t: Id, u: Id)
    requires Adds(s, r, t) && u != t && StageKept(s, r, u) && CallLogged(s, u)
    ensures CallLogged(r, u)
  {
    AddsKeepsFacts(s, r, t, u);
    hide WasSubmitted, WasHanded, WasEnded, WasReplied, WasHandedTo, Adds, Arriving, Queued, Done;
  }

  /** The log invariant after an event that concerns the call `t`. */
  lemma LogInvAfter(s: Board, r: Board, t: Id)
    requires LogInv(s) && Adds(s, r, t) && Calm(s, r, {t}) && s.next <= r.next && Sound(r.log)
    requires AboutSerial(s, r, t)
    requires t in r.calls ==> CallLogged(r, t)
    ensures LogInv(r)
  {
    hide Sound, CallLogged, Arriving, Queued, Done;
    forall u | u in r.calls ensures CallLogged(r, u) {
      if u != t { CallLoggedKept(s, r, t, u); }
    }
  }

  ghost predicate AboutSerial(s: Board, r: Board, t: Id) {
    t < r.next || forall i :: |s.log| <= i < |r.log| ==> !AboutCall(r.log[i])
  }
}
