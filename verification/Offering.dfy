/** A worker gets each call with the value it advertised for the service, and has not withdrawn. */
module Offering {
  import opened Sequences
  import opened Wire
  import opened Board
  import opened Invariant
  import opened Departure
  import opened Handlers
  import opened Steps
  import opened History
  import opened Framing
  import opened Steadiness
  import opened Turning
  import opened Stream
  import opened Traces
  import opened Codec
  import opened Messages
  import opened Responses

  // ---------- one event ----------

  /** What is advertised after an event was advertised before, or the event completes the advertisement. */
  lemma StepOffers(fx: Fixes, ss: seq<Board>, es: seq<Event>, n: nat, w: Id, v: Id)
    requires Trace(fx, ss, es) && n < |es| && w in ss[n + 1].clients && v in ss[n + 1].clients[w].adverts
    ensures Offers(ss[n], w, v, ss[n + 1].clients[w].adverts[v])
      || (|FrameOf(ss[n], es[n], w)| == 1 && OfferedBy(ss[n + 1], w, v, FrameOf(ss[n], es[n], w)[0]))
  {
    hide Inv, LogInv, Step, Possible, Allowed, Own, CallsOnward, NamesOnward, GoodStep, Trace, FrameOf, OfferedBy;
    TraceStarts(fx, ss, es);
    TraceStep(fx, ss, es, n);
    if w == Actor(ss[n], es[n]) { ActorOffers(fx, ss[n], es[n], ss[n + 1], v); }
  }

  lemma ActorOffers(fx: Fixes, s: Board, e: Event, r: Board, v: Id)
    requires Inv(s) && Possible(s, e) && Allowed(fx, s, e) && Step(fx, s, e) == Ok(r)
    requires Actor(s, e) in r.clients && v in r.clients[Actor(s, e)].adverts
    ensures Offers(s, Actor(s, e), v, r.clients[Actor(s, e)].adverts[v])
      || (|FrameOf(s, e, Actor(s, e))| == 1 && OfferedBy(r, Actor(s, e), v, FrameOf(s, e, Actor(s, e))[0]))
  {
    hide Inv, Walks, GoodBatches, DelClient, ReadScratch, ReadData, HandlerOk, LeaveOk, Connect, FrameOf, OfferedBy, Onward, EntriesFrom, ConnAfter;
    match e
    case Arrive => ArriveEffect(s);
    case Leave(_, _) => LeaveEffect(fx, s, e);
    case Read(c, chunk, env) =>
      if s.clients[c].conn.Receiving? { ReadEffect(fx, s, c, chunk, env); } else { LeaveEffect(fx, s, e); }
  }

  // ---------- whole runs ----------

  /** The advertisement that is in force at `n` was completed by some event, and has been in force since. */
  lemma {:induction false} OfferSince(fx: Fixes, ss: seq<Board>, es: seq<Event>, n: nat, w: Id, v: Id, o: int) returns (m: nat)
    requires Trace(fx, ss, es) && n <= |es| && Offers(ss[n], w, v, o)
    ensures m < n && |FrameOf(ss[m], es[m], w)| == 1 && OfferedBy(ss[m + 1], w, v, FrameOf(ss[m], es[m], w)[0])
    ensures forall i :: m < i <= n ==> Offers(ss[i], w, v, o)
    decreases n
  {
    hide Trace, FrameOf, OfferedBy;
    TraceStarts(fx, ss, es);
    assert n > 0;
    StepOffers(fx, ss, es, n - 1, w, v);
    if Offers(ss[n - 1], w, v, o) { m := OfferSince(fx, ss, es, n - 1, w, v, o); } else { m := n - 1; }
  }

  /** The bytes end in an advertisement as `tpadvertise` sends it. */
  ghost predicate SentOffer(bytes: seq<byte>, name: Name, o: int) {
    exists before, svc :: NameField(svc) && CutName(svc) == name && bytes == before + EncodeAdvertise(svc, o)
  }

  lemma HeaderIsOffer(bytes: seq<byte>, before: seq<byte>, b: seq<byte>)
    requires |b| == CommandLength(Advertise) && bytes == before + [TPTADVT] + b
    ensures SentOffer(bytes, CutName(b), ToLong(b, NAME_LENGTH))
  {
    hide CutName, ToLong, Long;
    var svc, rest := b[..NAME_LENGTH], b[NAME_LENGTH..];
    LongBack(b, NAME_LENGTH);
    assert b == svc + rest;
    CutNameIgnoresTail(svc, rest, NAME_LENGTH);
    assert bytes == before + EncodeAdvertise(svc, ToLong(b, NAME_LENGTH));
  }

  lemma OfferWasDelivered(fx: Fixes, ss: seq<Board>, es: seq<Event>, m: nat, w: Id, v: Id)
    requires Trace(fx, ss, es) && m < |es| && |FrameOf(ss[m], es[m], w)| == 1 && OfferedBy(ss[m + 1], w, v, FrameOf(ss[m], es[m], w)[0])
    ensures v in ss[m + 1].services && Offers(ss[m + 1], w, v, ss[m + 1].clients[w].adverts[v])
    ensures SentOffer(Delivered(es, m + 1, w), ss[m + 1].services[v].name, ss[m + 1].clients[w].adverts[v])
  {
    hide Inv, LogInv, Step, Possible, Allowed, Own, Onward, GoodStep, Trace, Payloads, Delivered, Handled, ToLong, CutName, SentOffer;
    TraceStarts(fx, ss, es);
    var f := FrameOf(ss[m], es[m], w)[0];
    var fs := Handled(ss, es, m, w);
    assert FrameOf(ss[m], es[m], w) == [f];
    FrameIsLive(ss[m], es[m], w);
    EndsInFrame(fx, ss, es, m, w, f);
    AlwaysUnderway(fx, ss, es, m, w);
    LastOne(fs);
    CommandByte(Last(fs).payload[0]);
    assert Last(fs).payload == [TPTADVT];
    HeaderIsOffer(Delivered(es, m + 1, w), Payloads(fs[..|fs| - 1]), f.payload);
  }

  /** The event completes a withdrawal of this name by `w`. */
  ghost predicate Withdraws(s: Board, e: Event, w: Id, name: Name) {
    exists b :: FrameOf(s, e, w) == [Framed(Unadvertise, b)] && |b| == CommandLength(Unadvertise) && CutName(b) == name
  }

  /** With event `m` `w` has delivered an advertisement of this name with this value, and up to `n` it does not withdraw it. */
  ghost predicate OfferedUntil(ss: seq<Board>, es: seq<Event>, m: nat, n: nat, w: Id, name: Name, o: int)
    requires m < n <= |es| < |ss|
  {
    SentOffer(Delivered(es, m + 1, w), name, o) && forall i :: m < i < n ==> !Withdraws(ss[i], es[i], w, name)
  }

  /** Before event `n`, `w` had delivered an advertisement of this name with this value, and has not withdrawn it since. */
  ghost predicate OfferStands(ss: seq<Board>, es: seq<Event>, n: nat, w: Id, name: Name, o: int)
    requires n <= |es| < |ss|
  {
    exists m :: 0 <= m < n && OfferedUntil(ss, es, m, n, w, name, o)
  }

  lemma NotWithdrawn(fx: Fixes, ss: seq<Board>, es: seq<Event>, i: nat, w: Id, v: Id, o: int)
    requires Trace(fx, ss, es) && i < |es| && v in ss[i + 1].services && Offers(ss[i + 1], w, v, o)
    ensures !Withdraws(ss[i], es[i], w, ss[i + 1].services[v].name)
  {
    hide Inv, LogInv, Step, Possible, Allowed, Own, Onward, GoodStep, Trace, FrameOf, CutName, OtherOffersStay, NothingElse;
    TraceStarts(fx, ss, es);
    var name := ss[i + 1].services[v].name;
    assert OffersName(ss[i + 1], w, name, o);
    if b :| FrameOf(ss[i], es[i], w) == [Framed(Unadvertise, b)] && |b| == CommandLength(Unadvertise) && CutName(b) == name {
      TraceStep(fx, ss, es, i);
      UnadvertiseAnswers(fx, ss[i], es[i], ss[i + 1], w, b, name);
      assert false;
    }
  }

  /** Over any good run: what a client advertises is what it delivered an advertisement for and has not withdrawn since. */
  lemma OffersStand(fx: Fixes, ss: seq<Board>, es: seq<Event>, n: nat, w: Id, v: Id, o: int)
    requires Trace(fx, ss, es) && n <= |es| && Offers(ss[n], w, v, o)
    ensures v in ss[n].services && OfferStands(ss, es, n, w, ss[n].services[v].name, o)
  {
    hide Inv, LogInv, Trace, FrameOf, OfferedBy, SentOffer, Delivered, Withdraws;
    TraceStarts(fx, ss, es);
    var m := OfferSince(fx, ss, es, n, w, v, o);
    OfferWasDelivered(fx, ss, es, m, w, v);
    OfferIsLive(fx, ss, es, n, w, v, o);
    var name := ss[n].services[v].name;
    assert v < ss[m + 1].next by { OfferIsLive(fx, ss, es, m + 1, w, v, o); }
    NamesStay(fx, ss, es, m + 1, n, v);
    forall i | m < i < n ensures !Withdraws(ss[i], es[i], w, name) {
      OfferIsLive(fx, ss, es, i + 1, w, v, o);
      NamesStay(fx, ss, es, i + 1, n, v);
      NotWithdrawn(fx, ss, es, i, w, v, o);
    }
    assert OfferedUntil(ss, es, m, n, w, name, o);
  }

  lemma OfferIsLive(fx: Fixes, ss: seq<Board>, es: seq<Event>, n: nat, w: Id, v: Id, o: int)
    requires Trace(fx, ss, es) && n <= |es| && Offers(ss[n], w, v, o)
    ensures v in ss[n].services && v < ss[n].next
  {
    hide Inv, LogInv, Trace;
    TraceStarts(fx, ss, es);
    TraceGood(fx, ss, es, n);
    InvTables(ss[n]);
  }

  /** Over any good run: the value a worker is handed with a call is the one it advertised for that name and has not withdrawn. */
  lemma HandedAsAdvertised(fx: Fixes, ss: seq<Board>, es: seq<Event>, j: nat) returns (n: nat)
    requires Trace(fx, ss, es) && j < |ss[|es|].log| && ss[|es|].log[j].Handed?
    ensures n < |es| && |ss[n].log| <= j < |ss[n + 1].log|
    ensures var e := ss[|es|].log[j]; OfferStands(ss, es, n, e.to, e.name, e.opaqueValue)
  {
    hide Inv, LogInv, Step, Possible, Allowed, Own, Onward, GoodStep, Trace, FrameOf, OfferStands;
    TraceStarts(fx, ss, es);
    n := WrittenAt(fx, ss, es, |es|, j);
    TraceStep(fx, ss, es, n);
    WrittenFromFrame(fx, ss[n], es[n], ss[n + 1], j);
    var e := ss[|es|].log[j];
    OffersStand(fx, ss, es, n, e.to, e.svc, e.opaqueValue);
  }
}
