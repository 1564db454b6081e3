/** connect/buffer.go: responses waiting for an ack, responses waiting for the flush API, and the
    history of every response ever registered. */
module MessageBuffer {
  import opened Json

  datatype Response = Response(requestId: string, payload: Json)

  /** The outcome of one send to the flush API. */
  datatype Sent = Sent(msg: Response, ok: bool)

  /** The flush API: it accepts or fails as it likes, and remembers. */
  class Api {
    var log: seq<Sent>
    const accepts: nat -> bool

    constructor (accepts: nat -> bool)
      ensures this.accepts == accepts && log == []
    {
      this.accepts := accepts;
      log := [];
    }

    method Send(msg: Response) returns (ok: bool)
      modifies this
      ensures log == old(log) + [Sent(msg, ok)] && ok == accepts(|old(log)|)
    {
      ok := accepts(|log|);
      log := log + [Sent(msg, ok)];
    }
  }

  /** The responses sent successfully in a stretch of the log, in order. */
  function Accepted(log: seq<Sent>): (r: seq<Response>)
    ensures |r| <= |log|
  {
    if log == [] then []
    else
      var last := log[|log| - 1];
      Accepted(log[..|log| - 1]) + (if last.ok then [last.msg] else [])
  }

  function Failures(log: seq<Sent>): (n: nat)
    ensures n + |Accepted(log)| == |log|
  {
    if log == [] then 0 else Failures(log[..|log| - 1]) + (if log[|log| - 1].ok then 0 else 1)
  }

  lemma AcceptedSnoc(log: seq<Sent>, s: Sent)
    ensures Accepted(log + [s]) == Accepted(log) + (if s.ok then [s.msg] else [])
    ensures Failures(log + [s]) == Failures(log) + (if s.ok then 0 else 1)
  {
    assert (log + [s])[..|log|] == log;
  }

  /** `sent` is what is missing of `whole`: each missing entry once, under its own key, and no other. */
  ghost predicate Partition(whole: map<string, Response>, rest: map<string, Response>, sent: seq<Response>) {
    && rest.Keys <= whole.Keys
    && (forall id :: id in rest ==> rest[id] == whole[id])
    && |sent| + |rest| == |whole|
    && (forall id :: id in whole && id !in rest ==> whole[id] in sent)
    && (forall r :: r in sent ==> r.requestId in whole && r.requestId !in rest && whole[r.requestId] == r)
  }

  /** Entries are stored under their own request id. */
  predicate Keyed(m: map<string, Response>) {
    forall id :: id in m ==> m[id].requestId == id
  }

  lemma PartitionStep(whole: map<string, Response>, rest: map<string, Response>, sent: seq<Response>, id: string)
    requires Partition(whole, rest, sent) && Keyed(whole) && id in rest
    ensures Keyed(rest - {id}) && Partition(whole, rest - {id}, sent + [rest[id]])
  {
    var rest' := rest - {id};
    assert rest'.Keys == rest.Keys - {id};
    assert |rest'| == |rest| - 1 by {
      assert |rest'| == |rest'.Keys| && |rest| == |rest.Keys|;
    }
    forall k | k in whole && k !in rest'
      ensures whole[k] in sent + [rest[id]]
    {
      if k == id { assert whole[k] == rest[id]; assert (sent + [rest[id]])[|sent|] == rest[id]; }
    }
  }

  /** The two maps of the buffer. */
  datatype Maps = Maps(buffered: map<string, Response>, pending: map<string, Response>)

  /** What can happen to them. Timers keep firing for the response they were started for. */
  datatype Event =
    | Registered(resp: Response)
    | TimerFired(resp: Response)
    | WriteFailed(resp: Response)
    | Acknowledged(id: string)
    | Flushed(rest: map<string, Response>, sends: seq<Sent>)

  function Move(m: Maps, e: Event): Maps {
    match e
    case Registered(resp) => m.(pending := m.pending[resp.requestId := resp])
    case TimerFired(resp) =>
      if resp.requestId in m.pending
      then Maps(m.buffered[resp.requestId := resp], m.pending - {resp.requestId})
      else m
    case WriteFailed(resp) => Maps(m.buffered[resp.requestId := resp], m.pending - {resp.requestId})
    case Acknowledged(id) => m.(pending := m.pending - {id})
    case Flushed(rest, _) => m.(buffered := rest)
  }

  /** The maps, every response ever registered, and the ids acknowledged while pending or accepted by a flush. */
  datatype Delivery = Delivery(maps: Maps, registered: map<string, Response>, acked: set<string>, accepted: set<string>)

  const EMPTY := Delivery(Maps(map[], map[]), map[], {}, {})

  /** Request ids are fresh, timers and failed writes are for registered responses, and a flush sends what
      its contract says. */
  ghost predicate Legal(d: Delivery, e: Event) {
    match e
    case Registered(resp) => resp.requestId !in d.registered
    case TimerFired(resp) => resp.requestId in d.registered && d.registered[resp.requestId] == resp
    case WriteFailed(resp) => resp.requestId in d.registered && d.registered[resp.requestId] == resp
    case Acknowledged(_) => true
    case Flushed(rest, sends) => Partition(d.maps.buffered, rest, Accepted(sends))
  }

  function Happen(d: Delivery, e: Event): Delivery {
    Delivery(
      Move(d.maps, e),
      if e.Registered? then d.registered[e.resp.requestId := e.resp] else d.registered,
      if e.Acknowledged? && e.id in d.maps.pending then d.acked + {e.id} else d.acked,
      if e.Flushed? then d.accepted + (set r | r in Accepted(e.sends) :: r.requestId) else d.accepted)
  }

  /** Every registered response is pending, buffered, acknowledged or accepted; the two maps are disjoint
      and hold nothing but registered responses, unchanged. */
  ghost predicate Conserved(d: Delivery) {
    && d.maps.pending.Keys !! d.maps.buffered.Keys
    && (forall id :: id in d.maps.pending ==> id in d.registered && d.maps.pending[id] == d.registered[id])
    && (forall id :: id in d.maps.buffered ==> id in d.registered && d.maps.buffered[id] == d.registered[id])
    && (forall id :: id in d.acked || id in d.accepted ==> id in d.registered)
    && (forall id :: id in d.registered ==>
          d.registered[id].requestId == id
          && (id in d.maps.pending || id in d.maps.buffered || id in d.acked || id in d.accepted))
  }

  lemma HappenConserves(d: Delivery, e: Event)
    requires Conserved(d) && Legal(d, e)
    ensures Conserved(Happen(d, e))
  {
    if e.Flushed? {
      var d' := Happen(d, e);
      forall id | id in d.maps.buffered && id !in e.rest
        ensures id in d'.accepted
      {
        assert d.maps.buffered[id] in Accepted(e.sends);
      }
    }
  }

  /** Nothing but the entry under `id` differs. */
  ghost predicate SameBut(m: map<string, Response>, m': map<string, Response>, id: string) {
    forall k :: k != id ==> (k in m' <==> k in m) && (k in m' ==> m'[k] == m[k])
  }

  /** Only this id's entries change, and it ends up in one map or in none. */
  ghost predicate Placed(m: Maps, m': Maps, id: string, pending: Option<Response>, buffered: Option<Response>) {
    && SameBut(m.pending, m'.pending, id) && SameBut(m.buffered, m'.buffered, id)
    && (match pending case Some(r) => id in m'.pending && m'.pending[id] == r case None => id !in m'.pending)
    && (match buffered case Some(r) => id in m'.buffered && m'.buffered[id] == r case None => id !in m'.buffered)
  }

  /** What a map has under an id. */
  function Under(m: map<string, Response>, id: string): Option<Response> {
    if id in m then Some(m[id]) else None
  }

  /** What each event does: a registered response is pending, a timer moves it to the buffer if it still is, a
      failed write does in any case, an ack takes it off the pending ones, and a flush only touches the buffer. */
  lemma MoveMeans(m: Maps, resp: Response, rest: map<string, Response>, sends: seq<Sent>)
    ensures var id := resp.requestId;
      && Placed(m, Move(m, Registered(resp)), id, Some(resp), Under(m.buffered, id))
      && (id in m.pending ==> Placed(m, Move(m, TimerFired(resp)), id, None, Some(resp)))
      && (id !in m.pending ==> Move(m, TimerFired(resp)) == m)
      && Placed(m, Move(m, WriteFailed(resp)), id, None, Some(resp))
      && Placed(m, Move(m, Acknowledged(id)), id, None, Under(m.buffered, id))
      && Move(m, Flushed(rest, sends)).pending == m.pending && Move(m, Flushed(rest, sends)).buffered == rest
  {
  }

  /** A run of the buffer: its events in order, each legal when it happens. */
  ghost predicate LegalRun(es: seq<Event>)
    decreases |es|
  {
    es == [] || (LegalRun(es[..|es| - 1]) && Legal(After(es[..|es| - 1]), es[|es| - 1]))
  }

  function After(es: seq<Event>): Delivery
    decreases |es|
  {
    if es == [] then EMPTY else Happen(After(es[..|es| - 1]), es[|es| - 1])
  }

  /** Over every interleaving of registrations, timers, failed writes, acks and flushes no response is lost. */
  lemma {:induction false} NothingIsLost(es: seq<Event>)
    requires LegalRun(es)
    ensures Conserved(After(es))
    decreases |es|
  {
    if es != [] {
      NothingIsLost(es[..|es| - 1]);
      HappenConserves(After(es[..|es| - 1]), es[|es| - 1]);
    }
  }

  /** The event decides about this id: its response is not waiting for an ack any more. */
  predicate Decides(e: Event, id: string) {
    match e
    case TimerFired(resp) => resp.requestId == id
    case WriteFailed(resp) => resp.requestId == id
    case Acknowledged(acked) => acked == id
    case _ => false
  }

  lemma StaysDecided(d: Delivery, e: Event, id: string)
    requires Legal(d, e) && id in d.registered && (Decides(e, id) || id !in d.maps.pending)
    ensures var d' := Happen(d, e); id in d'.registered && id !in d'.maps.pending
  {
  }

  lemma {:induction false} NeverPendingAgain(es: seq<Event>, i: nat, id: string)
    requires LegalRun(es) && i < |es| && Decides(es[i], id) && id in After(es[..i]).registered
    ensures id in After(es).registered && id !in After(es).maps.pending
    decreases |es|
  {
    var past, e := es[..|es| - 1], es[|es| - 1];
    assert es[..i] == past[..i];
    if i < |past| {
      NeverPendingAgain(past, i, id);
    } else {
      assert past[..i] == past;
    }
    StaysDecided(After(past), e, id);
  }

  /** Once its timer has fired, its write has failed, or it was acknowledged, a response is never pending again:
      it is buffered, acknowledged or accepted by a flush. */
  lemma DecidedIsNotPending(es: seq<Event>, i: nat, id: string)
    requires LegalRun(es) && i < |es| && Decides(es[i], id) && id in After(es[..i]).registered
    ensures var d := After(es);
      && id in d.registered && id !in d.maps.pending
      && (id in d.maps.buffered || id in d.acked || id in d.accepted)
  {
    NeverPendingAgain(es, i, id);
    NothingIsLost(es);
  }

  /** What is pending has not been acknowledged or accepted before. */
  ghost predicate PendingIsNew(d: Delivery) {
    forall id :: id in d.maps.pending ==> id !in d.acked && id !in d.accepted
  }

  lemma StaysNew(d: Delivery, e: Event)
    requires Conserved(d) && Legal(d, e) && PendingIsNew(d)
    ensures PendingIsNew(Happen(d, e))
  {
    SendsBuffered(d, e);
    var d' := Happen(d, e);
    forall id | id in d'.maps.pending
      ensures id !in d'.acked && id !in d'.accepted
    {
      assert id in d.maps.pending || (e.Registered? && id !in d.registered);
    }
  }

  lemma {:induction false} PendingAlwaysNew(es: seq<Event>)
    requires LegalRun(es)
    ensures PendingIsNew(After(es))
    decreases |es|
  {
    if es != [] {
      PendingAlwaysNew(es[..|es| - 1]);
      NothingIsLost(es[..|es| - 1]);
      StaysNew(After(es[..|es| - 1]), es[|es| - 1]);
    }
  }

  /** A flush only sends what is buffered. */
  lemma SendsBuffered(d: Delivery, e: Event)
    requires Conserved(d) && Legal(d, e)
    ensures forall id :: id in Happen(d, e).accepted ==> id in d.accepted || id in d.maps.buffered
  {
  }

  /** The run neither fails to write this response nor fails to have it acknowledged while pending. */
  ghost predicate Delivered(es: seq<Event>, id: string) {
    && (forall i :: 0 <= i < |es| ==> !(es[i].WriteFailed? && es[i].resp.requestId == id))
    && id in After(es).acked
  }

  /** An acknowledged response whose write did not fail is not sent again: it is neither pending nor buffered,
      and no flush has sent it. */
  lemma {:induction false} AcknowledgedIsNotFlushed(es: seq<Event>, id: string)
    requires LegalRun(es) && Delivered(es, id)
    ensures var d := After(es); id !in d.maps.pending && id !in d.maps.buffered && id !in d.accepted
    decreases |es|
  {
    var past, e := es[..|es| - 1], es[|es| - 1];
    assert forall i :: 0 <= i < |past| ==> past[i] == es[i];
    NothingIsLost(past);
    SendsBuffered(After(past), e);
    PendingAlwaysNew(past);
    if id in After(past).acked {
      AcknowledgedIsNotFlushed(past, id);
    } else {
      assert e == Acknowledged(id) && id in After(past).maps.pending;
    }
  }

  /** Registering keeps the maps disjoint exactly when the id is not already buffered. */
  lemma DisjointIffNotBuffered(m: Maps, resp: Response)
    requires m.pending.Keys !! m.buffered.Keys
    ensures Move(m, Registered(resp)).pending.Keys !! Move(m, Registered(resp)).buffered.Keys
      <==> resp.requestId !in m.buffered
  {
    var m' := Move(m, Registered(resp));
    assert resp.requestId in m'.pending.Keys;
  }

  /** A flush of `whole` that has got this far: these sends, so many of them failed, `rest` still buffered. */
  ghost predicate Progress(whole: map<string, Response>, rest: map<string, Response>, sends: seq<Sent>, failures: nat) {
    Keyed(whole) && Keyed(rest) && Partition(whole, rest, Accepted(sends)) && Failures(sends) == failures
  }

  lemma ProgressStep(whole: map<string, Response>, rest: map<string, Response>, sends: seq<Sent>, failures: nat,
      id: string, ok: bool)
    requires Progress(whole, rest, sends, failures) && id in rest
    ensures Progress(whole, if ok then rest - {id} else rest, sends + [Sent(rest[id], ok)],
                     if ok then failures else failures + 1)
  {
    AcceptedSnoc(sends, Sent(rest[id], ok));
    if ok {
      PartitionStep(whole, rest, Accepted(sends), id);
    }
  }

  class Buffer {
    var buffered: map<string, Response>
    var pendingAck: map<string, Response>
    const api: Api

    ghost predicate Valid()
      reads this
    {
      Keyed(buffered) && Keyed(pendingAck)
    }

    ghost function Now(): Maps
      reads this
    {
      Maps(buffered, pendingAck)
    }

    constructor (api: Api)
      ensures Valid() && buffered == map[] && pendingAck == map[] && this.api == api
    {
      this.api := api;
      buffered, pendingAck := map[], map[];
    }

    method HasMessages() returns (r: bool)
      ensures r <==> buffered != map[]
    {
      r := |buffered| > 0;
    }

    method Append(msg: Response)
      requires Valid()
      modifies this
      ensures Valid() && Now() == Move(old(Now()), WriteFailed(msg))
      ensures buffered == old(buffered)[msg.requestId := msg] && pendingAck == old(pendingAck) - {msg.requestId}
    {
      buffered := buffered[msg.requestId := msg];
      pendingAck := pendingAck - {msg.requestId};
    }

    method AddPending(resp: Response)
      requires Valid()
      modifies this`pendingAck
      ensures Valid() && Now() == Move(old(Now()), Registered(resp))
      ensures pendingAck == old(pendingAck)[resp.requestId := resp] && buffered == old(buffered)
    {
      pendingAck := pendingAck[resp.requestId := resp];
    }

    /** One firing of the timer goroutine `addPending` started for `resp`. */
    method TimerFires(resp: Response)
      requires Valid()
      modifies this
      ensures Valid() && Now() == Move(old(Now()), TimerFired(resp))
      ensures resp.requestId in old(pendingAck) ==> buffered == old(buffered)[resp.requestId := resp]
      ensures resp.requestId !in old(pendingAck) ==> buffered == old(buffered)
      ensures pendingAck == old(pendingAck) - {resp.requestId}
    {
      if resp.requestId in pendingAck {
        buffered := buffered[resp.requestId := resp];
        pendingAck := pendingAck - {resp.requestId};
      }
    }

    method Acknowledge(id: string)
      requires Valid()
      modifies this`pendingAck
      ensures Valid() && Now() == Move(old(Now()), Acknowledged(id))
      ensures pendingAck == old(pendingAck) - {id} && buffered == old(buffered)
    {
      pendingAck := pendingAck - {id};
    }

    /** What becomes of a finished response when no timer or ack comes in between: it waits for its ack,
        or for the next flush if the write failed. */
    method Deliver(resp: Response, written: bool)
      requires Valid()
      modifies this
      ensures Valid()
      ensures written ==> pendingAck == old(pendingAck)[resp.requestId := resp] && buffered == old(buffered)
      ensures !written ==> pendingAck == old(pendingAck) - {resp.requestId}
      ensures !written ==> buffered == old(buffered)[resp.requestId := resp]
    {
      AddPending(resp);
      if !written {
        Append(resp);
      }
    }

    /** Sends everything buffered, giving up after the fifth failed send. On success every message was
        sent once with at most four failures in between and nothing is left; otherwise there were exactly
        five failures and something is left; either way sent and left make up what was there. */
    method Flush() returns (ok: bool)
      requires Valid()
      modifies this`buffered, api
      ensures Valid() && pendingAck == old(pendingAck) && old(api.log) <= api.log
      ensures var sends := api.log[|old(api.log)|..];
        && Partition(old(buffered), buffered, Accepted(sends))
        && (ok ==> buffered == map[] && |Accepted(sends)| == |old(buffered)| && Failures(sends) <= 4)
        && (!ok ==> buffered != map[] && Failures(sends) == 5)
    {
      var attempt := 0;
      ghost var base := api.log;
      ghost var sends: seq<Sent> := [];
      while true
        invariant 0 <= attempt <= 5 && Keyed(pendingAck) && base == old(api.log) && api.log == base + sends
        invariant Progress(old(buffered), buffered, sends, attempt)
        invariant attempt > 0 ==> buffered != map[]
        decreases 5 - attempt
      {
        assert api.log[|base|..] == sends;
        if attempt == 5 {
          return false;
        }
        sends := FlushPass(old(buffered), base, sends, attempt);
        assert api.log[|base|..] == sends;
        if |buffered| == 0 {
          return true;
        }
        attempt := attempt + 1;
      }
    }

    /** One range over the map: sends entries in some order until one fails. */
    method FlushPass(ghost whole: map<string, Response>, ghost base: seq<Sent>, ghost sends: seq<Sent>,
        ghost failures: nat) returns (ghost all: seq<Sent>)
      requires api.log == base + sends && Progress(whole, buffered, sends, failures)
      modifies this`buffered, api
      ensures api.log == base + all
      ensures Progress(whole, buffered, all, if buffered == map[] then failures else failures + 1)
    {
      all := sends;
      var failed := false;
      var todo := buffered.Keys;
      while todo != {} && !failed
        invariant api.log == base + all
        invariant Progress(whole, buffered, all, if failed then failures + 1 else failures)
        invariant todo == buffered.Keys && (failed ==> todo != {})
        decreases |todo|, !failed
      {
        var id :| id in todo;
        var ok;
        ok, all := SendOne(id, whole, base, all, failures);
        if ok {
          todo := todo - {id};
        } else {
          failed := true;
        }
      }
    }

    /** Sends one entry; it leaves the buffer only when the API took it. */
    method SendOne(id: string, ghost whole: map<string, Response>, ghost base: seq<Sent>, ghost sends: seq<Sent>,
        ghost failures: nat) returns (ok: bool, ghost all: seq<Sent>)
      requires api.log == base + sends && Progress(whole, buffered, sends, failures) && id in buffered
      modifies this`buffered, api
      ensures api.log == base + all && all == sends + [Sent(old(buffered)[id], ok)]
      ensures buffered == if ok then old(buffered) - {id} else old(buffered)
      ensures Progress(whole, buffered, all, if ok then failures else failures + 1)
    {
      var msg := buffered[id];
      ok := api.Send(msg);
      ProgressStep(whole, buffered, sends, failures, id, ok);
      all := sends + [Sent(msg, ok)];
      if ok {
        buffered := buffered - {id};
      }
    }
  }
}
