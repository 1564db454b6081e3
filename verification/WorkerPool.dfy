/** connect/worker_pool.go as a state machine: senders, a bounded channel, workers and a WaitGroup. */
module WorkerPool {

  type Msg = nat

  /** `counted` messages have been added to the WaitGroup and not sent yet; `queue` is the channel's
      buffer and `blocked` its waiting senders; `sent`, `taken` and `finished` are histories. */
  datatype Pool = Pool(
    concurrency: nat,
    inProgress: int,
    counted: set<Msg>,
    queue: seq<Msg>,
    blocked: seq<Msg>,
    running: set<Msg>,
    workers: nat,
    cancelled: bool,
    sent: seq<Msg>,
    taken: seq<Msg>,
    finished: set<Msg>)

  function NewPool(concurrency: nat): Pool {
    Pool(concurrency, 0, {}, [], [], {}, concurrency, false, [], [], {})
  }

  datatype Event =
    | Count(msg: Msg)
    | Send(msg: Msg)
    | Take
    | Finish(msg: Msg)
    | Cancel
    | Exit

  /** The messages ever added. */
  function Added(p: Pool): set<Msg> {
    p.counted + (set m | m in p.sent)
  }

  /** `Add` counts a new message and then sends it; an idle worker takes a message or, once the context
      is cancelled, may leave; a running one finishes. */
  predicate Enabled(p: Pool, e: Event) {
    match e
    case Count(m) => m !in Added(p)
    case Send(m) => m in p.counted
    case Take => p.queue != [] && |p.running| < p.workers
    case Finish(m) => m in p.running
    case Cancel => true
    case Exit => p.cancelled && |p.running| < p.workers
  }

  /** One step; an event that is not enabled does not happen. */
  function Step(p: Pool, e: Event): Pool {
    if !Enabled(p, e) then p
    else
    match e
    case Count(m) => p.(inProgress := p.inProgress + 1, counted := p.counted + {m})
    case Send(m) =>
      var p := p.(counted := p.counted - {m}, sent := p.sent + [m]);
      if |p.queue| < p.concurrency then p.(queue := p.queue + [m]) else p.(blocked := p.blocked + [m])
    case Take =>
      var m := p.queue[0];
      var p := p.(running := p.running + {m}, taken := p.taken + [m]);
      if p.blocked == [] then p.(queue := p.queue[1..])
      else p.(queue := p.queue[1..] + [p.blocked[0]], blocked := p.blocked[1..])
    case Finish(m) => p.(running := p.running - {m}, finished := p.finished + {m}, inProgress := p.inProgress - 1)
    case Cancel => p.(cancelled := true)
    case Exit => p.(workers := p.workers - 1)
  }

  predicate Distinct(s: seq<Msg>) {
    forall i, j :: 0 <= i < j < |s| ==> s[i] != s[j]
  }

  ghost predicate Accounted(p: Pool) {
    && p.inProgress == |p.counted| + |p.blocked| + |p.queue| + |p.running|
    && |p.queue| <= p.concurrency && (p.blocked != [] ==> |p.queue| == p.concurrency)
    && |p.running| <= p.workers <= p.concurrency
    && p.sent == p.taken + p.queue + p.blocked && Distinct(p.sent)
    && (forall m :: m in p.counted ==> m !in p.sent)
    && (forall m :: m in p.taken <==> m in p.running || m in p.finished)
    && p.running !! p.finished
  }

  lemma DistinctSnoc(s: seq<Msg>, m: Msg)
    requires Distinct(s) && m !in s
    ensures Distinct(s + [m])
  {
  }

  lemma SendAccounted(p: Pool, m: Msg)
    requires Accounted(p) && m in p.counted
    ensures Accounted(Step(p, Send(m)))
  {
    var p' := Step(p, Send(m));
    DistinctSnoc(p.sent, m);
    if |p.queue| < p.concurrency {
      assert p.blocked == [] && p'.sent == p'.taken + p'.queue + p'.blocked;
    }
  }

  lemma MovedOver(taken: seq<Msg>, queue: seq<Msg>, blocked: seq<Msg>)
    requires queue != []
    ensures taken + queue + blocked == (taken + [queue[0]]) + queue[1..] + blocked
    ensures blocked != [] ==> queue[1..] + blocked == (queue[1..] + [blocked[0]]) + blocked[1..]
  {
    assert queue == [queue[0]] + queue[1..];
    if blocked != [] {
      assert blocked == [blocked[0]] + blocked[1..];
    }
  }

  lemma NotYetTaken(taken: seq<Msg>, rest: seq<Msg>)
    requires rest != [] && Distinct(taken + rest)
    ensures rest[0] !in taken
  {
    assert (taken + rest)[|taken|] == rest[0];
    assert forall i :: 0 <= i < |taken| ==> (taken + rest)[i] == taken[i];
  }

  lemma TakeKeepsOrder(p: Pool)
    requires Enabled(p, Take) && p.sent == p.taken + p.queue + p.blocked && Distinct(p.sent)
    ensures var q := Step(p, Take); q.sent == q.taken + q.queue + q.blocked
    ensures p.queue[0] !in p.taken
  {
    MovedOver(p.taken, p.queue, p.blocked);
    assert p.taken + p.queue + p.blocked == p.taken + (p.queue + p.blocked);
    NotYetTaken(p.taken, p.queue + p.blocked);
  }

  lemma TakeAccounted(p: Pool)
    requires Accounted(p) && Enabled(p, Take)
    ensures Accounted(Step(p, Take))
  {
    var p' := Step(p, Take);
    var m := p.queue[0];
    TakeKeepsOrder(p);
    forall x | x in p'.taken || x in p'.running
      ensures x in p'.taken <==> x in p'.running || x in p'.finished
    {
      assert x in p'.taken <==> x in p.taken || x == m;
    }
  }

  lemma StepAccounted(p: Pool, e: Event)
    requires Accounted(p)
    ensures Accounted(Step(p, e))
  {
    if Enabled(p, e) {
      match e
      case Send(m) => SendAccounted(p, m);
      case Take => TakeAccounted(p);
      case _ =>
    }
  }

  lemma StepKeepsConcurrency(p: Pool, e: Event)
    ensures Step(p, e).concurrency == p.concurrency
  {
  }

  function After(p: Pool, es: seq<Event>): Pool
    decreases |es|
  {
    if es == [] then p else Step(After(p, es[..|es| - 1]), es[|es| - 1])
  }

  /** In every reachable state the WaitGroup counts exactly the messages announced, blocked, queued or
      running; queue and running stay within the concurrency; messages are taken in the order they were
      sent and none twice. */
  lemma {:induction false} AlwaysAccounted(concurrency: nat, es: seq<Event>)
    ensures Accounted(After(NewPool(concurrency), es))
    ensures After(NewPool(concurrency), es).concurrency == concurrency
    decreases |es|
  {
    if es != [] {
      var before := After(NewPool(concurrency), es[..|es| - 1]);
      AlwaysAccounted(concurrency, es[..|es| - 1]);
      StepAccounted(before, es[|es| - 1]);
      StepKeepsConcurrency(before, es[|es| - 1]);
    }
  }

  /** A message that is announced, blocked, queued or running has not finished. */
  lemma UnfinishedIsAdded(p: Pool, m: Msg)
    requires Accounted(p) && (m in p.counted || m in p.blocked || m in p.queue || m in p.running)
    ensures m in Added(p) && m !in p.finished
  {
    if m in p.queue + p.blocked {
      var i :| 0 <= i < |p.queue + p.blocked| && (p.queue + p.blocked)[i] == m;
      assert p.sent[|p.taken| + i] == m;
      assert m !in p.taken by {
        assert forall j :: 0 <= j < |p.taken| ==> p.sent[j] == p.taken[j];
      }
    } else if m in p.counted {
      assert forall x :: x in p.taken ==> x in p.sent;
    } else {
      assert m in p.taken && m in p.sent;
    }
  }

  /** `Wait` can return exactly when every message ever added has finished. */
  lemma WaitMeansFinished(concurrency: nat, es: seq<Event>)
    ensures var q := After(NewPool(concurrency), es); q.inProgress == 0 <==> Added(q) == q.finished
  {
    AlwaysAccounted(concurrency, es);
    var q := After(NewPool(concurrency), es);
    if q.inProgress == 0 {
      assert q.counted == {} && q.running == {} && q.sent == q.taken;
      assert forall m :: m in Added(q) <==> m in q.finished;
    } else {
      var m :=
        if q.blocked != [] then q.blocked[0]
        else if q.queue != [] then q.queue[0]
        else
          assert q.counted != {} || q.running != {};
          assert q.counted + q.running != {};
          var x :| x in q.counted + q.running; x;
      UnfinishedIsAdded(q, m);
    }
  }

  /** Once the last worker has left, nothing finishes any more: what is announced, blocked or queued is
      counted for good. */
  lemma {:induction false} AbandonedStays(p: Pool, es: seq<Event>)
    requires Accounted(p) && p.workers == 0
    ensures var q := After(p, es);
      && Accounted(q) && q.workers == 0 && q.finished == p.finished
      && p.queue <= q.queue && p.inProgress <= q.inProgress
    decreases |es|
  {
    if es != [] {
      AbandonedStays(p, es[..|es| - 1]);
      AbandonedStep(After(p, es[..|es| - 1]), es[|es| - 1]);
    }
  }

  lemma AbandonedStep(p: Pool, e: Event)
    requires Accounted(p) && p.workers == 0
    ensures var q := Step(p, e);
      && Accounted(q) && q.workers == 0 && q.finished == p.finished
      && p.queue <= q.queue && p.inProgress <= q.inProgress
  {
    StepAccounted(p, e);
    assert p.running == {};
  }

  lemma AfterSnoc(p: Pool, es: seq<Event>, last: Event)
    ensures After(p, es + [last]) == Step(After(p, es), last)
  {
    assert (es + [last])[..|es|] == es && (es + [last])[|es|] == last;
  }

  lemma {:induction false} AfterCons(p: Pool, e: Event, es: seq<Event>)
    ensures After(p, [e] + es) == After(Step(p, e), es)
    decreases |es|
  {
    if es == [] {
      AfterSnoc(p, [], e);
      assert [e] + es == [] + [e];
    } else {
      var front, last := es[..|es| - 1], es[|es| - 1];
      AfterCons(p, e, front);
      AfterSnoc(p, [e] + front, last);
      AfterSnoc(Step(p, e), front, last);
      assert [e] + es == [e] + front + [last] && es == front + [last];
    }
  }

  /** What the pool still has to do: each message is sent, taken and finished. */
  function Work(p: Pool): nat {
    3 * |p.counted| + 2 * (|p.blocked| + |p.queue|) + |p.running|
  }

  /** With a worker left something can always be done: a running message finishes, or else one is taken, or
      else one is sent. */
  lemma NextWork(p: Pool) returns (e: Event)
    requires Accounted(p) && p.workers > 0 && p.inProgress != 0
    ensures Accounted(Step(p, e)) && Step(p, e).workers == p.workers && Work(Step(p, e)) < Work(p)
  {
    if p.running != {} {
      var m :| m in p.running;
      e := Finish(m);
    } else if p.queue != [] {
      e := Take;
      assert p.queue[0] !in p.running;
    } else {
      assert p.blocked == [] && p.counted != {};
      var m :| m in p.counted;
      e := Send(m);
    }
    StepAccounted(p, e);
  }

  /** After these events `Wait` can return. */
  predicate Drained(p: Pool, es: seq<Event>) {
    After(p, es).inProgress == 0
  }

  lemma {:induction false} Drains(p: Pool) returns (es: seq<Event>)
    requires Accounted(p) && (p.workers > 0 || p.inProgress == 0)
    ensures Drained(p, es)
    decreases Work(p)
  {
    if p.inProgress == 0 {
      es := [];
      assert After(p, es) == p;
    } else {
      var e := NextWork(p);
      var rest := Drains(Step(p, e));
      es := [e] + rest;
      AfterCons(p, e, rest);
    }
  }

  /** Exactly when `Wait` can still return: a worker is left, or nothing is in progress. */
  lemma WaitCanReturnIff(p: Pool)
    requires Accounted(p)
    ensures (exists es :: Drained(p, es)) <==> p.workers > 0 || p.inProgress == 0
  {
    if p.workers > 0 || p.inProgress == 0 {
      var es := Drains(p);
    } else {
      forall es: seq<Event>
        ensures !Drained(p, es)
      {
        AbandonedStays(p, es);
      }
    }
  }

  lemma WorkerLeaves(p: Pool, e: Event)
    ensures p.cancelled ==> Step(p, e).cancelled
    ensures Step(p, e).workers != p.workers ==> e == Exit && p.cancelled
  {
  }

  /** Workers only leave once the context is cancelled: until then, or as long as none has left, there are as many
      as the concurrency says. */
  lemma {:induction false} WorkersStay(concurrency: nat, es: seq<Event>)
    requires !After(NewPool(concurrency), es).cancelled || Exit !in es
    ensures After(NewPool(concurrency), es).workers == concurrency
    decreases |es|
  {
    if es != [] {
      var front, last := es[..|es| - 1], es[|es| - 1];
      WorkerLeaves(After(NewPool(concurrency), front), last);
      assert last in es && (Exit in front ==> Exit in es);
      WorkersStay(concurrency, front);
    }
  }

  lemma AddedGrows(p: Pool, e: Event)
    requires Accounted(p)
    ensures Added(p) <= Added(Step(p, e))
  {
    if Enabled(p, e) && e.Send? {
      assert Step(p, e).sent == p.sent + [e.msg];
    }
  }

  lemma {:induction false} AddedStays(p: Pool, es: seq<Event>)
    requires Accounted(p)
    ensures Accounted(After(p, es)) && Added(p) <= Added(After(p, es))
    decreases |es|
  {
    if es != [] {
      AddedStays(p, es[..|es| - 1]);
      StepAccounted(After(p, es[..|es| - 1]), es[|es| - 1]);
      AddedGrows(After(p, es[..|es| - 1]), es[|es| - 1]);
    }
  }

  lemma {:induction false} AfterConcat(p: Pool, es: seq<Event>, more: seq<Event>)
    ensures After(p, es + more) == After(After(p, es), more)
    decreases |more|
  {
    if more == [] {
      assert es + more == es;
    } else {
      assert (es + more)[..|es + more| - 1] == es + more[..|more| - 1];
      AfterConcat(p, es, more[..|more| - 1]);
    }
  }

  /** The message has finished after these events. */
  predicate FinishedAfter(p: Pool, es: seq<Event>, m: Msg) {
    m in After(p, es).finished
  }

  /** A pool for at least one message at a time can finish every message ever added to it, until its context is
      cancelled, and after that as long as no worker has left. */
  lemma EveryMessageCanFinish(concurrency: nat, es: seq<Event>, m: Msg)
    requires concurrency > 0
    requires !After(NewPool(concurrency), es).cancelled || Exit !in es
    requires m in Added(After(NewPool(concurrency), es))
    ensures exists more :: FinishedAfter(NewPool(concurrency), es + more, m)
  {
    var p := After(NewPool(concurrency), es);
    AlwaysAccounted(concurrency, es);
    WorkersStay(concurrency, es);
    var more := Drains(p);
    AddedStays(p, more);
    AfterConcat(NewPool(concurrency), es, more);
    WaitMeansFinished(concurrency, es + more);
    assert FinishedAfter(NewPool(concurrency), es + more, m);
  }
}
