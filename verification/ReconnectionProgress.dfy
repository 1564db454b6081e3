/** What the loop does get done: it tries again, it can connect until its attempts are used up, and it tells the
    caller when it ends. */
module ReconnectionProgress {
  import opened Json
  import opened Errors
  import opened ConnectReports
  import opened RunLoop
  import opened Reconnection
  import opened ReconnectionSafety

  /** The first launch, with the primary key. */
  lemma FirstLaunch(keys: Keys)
    ensures var s := Step(NewSystem(keys), Initiate);
      && s.phase == Selecting && s.log == [Launched(keys.primary, true)] && s.conns == [Conn(Preparing, keys.primary)]
  {
  }

  /** After a wait the loop launches another connection with its key exactly if it has launched fewer than five
      since it was last connected; otherwise it ends. */
  lemma TriesAgainIff(keys: Keys, es: seq<Event>)
    requires After(keys, es).phase == Waiting
    ensures var s := After(keys, es);
      var t := Step(s, BackoffElapses);
      if Launches(s.log) < 5
      then
        && t.phase == Selecting && t.log == s.log + [Launched(s.loop.auth.key, true)]
        && t.conns == s.conns + [Conn(Preparing, s.loop.auth.key)]
      else t.phase == Ended(false) && t.log == s.log && t.conns == s.conns
  {
    BoundedReconnection(keys, es);
  }

  /** The caller of `Connect` has been told when the loop ends, except when it ends by seeing the cancellation in
      its select. */
  lemma EndTellsCaller(keys: Keys, es: seq<Event>, e: Event)
    requires var s := After(keys, es); !s.phase.Ended? && Step(s, e).phase.Ended? && !e.LoopSeesCancel?
    ensures var t := Step(After(keys, es), e); |t.loop.signals| == 1 && !t.loop.isInitial
  {
    SignalsAlways(keys, es);
    StepKeepsSignals(After(keys, es), e);
  }

  /** Once the worker is cancelled a connection shuts down and reports so. */
  lemma ShutdownIsReported(s: System, i: nat)
    requires At(s, i, Handling) && s.cancelled
    ensures At(Step(s, ShutdownDone(i)), i, Reporting(Report(false, None)))
  {
  }

  /** A failure before the hand-over, buffered messages that cannot be sent, and a reading that ends, are reported
      for another connection. */
  lemma FailureIsReported(s: System, i: nat, e: Event)
    requires (e.PrepareFails? || e.FlushFails? || e.ReadEnds?) && e.conn == i
    requires || (e.PrepareFails? && At(s, i, Preparing) && PrepareError(e.failure).Some?)
      || (e.FlushFails? && At(s, i, Handling))
      || (e.ReadEnds? && At(s, i, Handling) && !s.cancelled && !Is(e.err, DrainingKind))
    ensures AtReport(Step(s, e), i) && Step(s, e).conns[i].phase.report.reconnect
  {
    if e.PrepareFails? {
      PrepareReportsExactly(e.failure);
    } else if e.FlushFails? {
      var err := Reconnect(Wrapf("could not send buffered messages", e.err));
      assert ReconnectKind(err) && Find(err, ReconnectKind) == Some(err);
    } else {
      LossReportsExactly(e.err, e.missedHeartbeat);
    }
  }

  /** A replaced connection goes, and so does the one whose last report is taken after the loop's end. */
  lemma ConnectionGoes(s: System, i: nat)
    requires i < |s.conns|
    ensures s.conns[i].phase == Draining ==> At(Step(s, DrainOver(i)), i, Gone)
    ensures (s.phase.Ended? && s.conns[i].phase.Reporting? ==>
        At(Step(s, FinalReport(i)), i, Gone) && Step(s, FinalReport(i)).phase == Ended(false))
  {
  }

  /** A cancelled worker's loop can always end with its next step. */
  lemma CancelledCanEnd(s: System)
    requires !s.phase.Ended?
    ensures Step(Step(s, CancelWorker), if s.phase == Waiting then BackoffCancelled else LoopSeesCancel).phase.Ended?
  {
  }

  /* ---------- connecting ---------- */

  function Onward(s: System, es: seq<Event>): System
    decreases |es|
  {
    if es == [] then s else Onward(Step(s, es[0]), es[1..])
  }

  /** These events bring a connected event. */
  ghost predicate Connects(s: System, es: seq<Event>) {
    var t := Onward(s, es);
    |s.log| <= |t.log| && exists k :: |s.log| <= k < |t.log| && t.log[k] == Connected
  }

  /** Events after which the next ones connect. */
  lemma ConnectsLater(s: System, e: Event, es: seq<Event>)
    requires Connects(Step(s, e), es) && |s.log| <= |Step(s, e).log|
    ensures Connects(s, [e] + es)
  {
    assert ([e] + es)[1..] == es;
    assert Onward(s, [e] + es) == Onward(Step(s, e), es);
  }

  lemma AnnouncingConnects(s: System, i: nat) returns (es: seq<Event>)
    requires s.phase == Selecting && At(s, i, Announcing)
    ensures Connects(s, es)
  {
    es := [LoopSeesConnected(i)];
    assert es[1..] == [] && Onward(s, es) == Step(s, LoopSeesConnected(i));
    assert Onward(s, es).log[|s.log|] == Connected;
  }

  lemma PreparingConnects(s: System, i: nat) returns (es: seq<Event>)
    requires s.phase == Selecting && At(s, i, Preparing)
    ensures Connects(s, es)
  {
    var later := AnnouncingConnects(Step(s, PrepareSucceeds(i)), i);
    es := [PrepareSucceeds(i)] + later;
    ConnectsLater(s, PrepareSucceeds(i), later);
  }

  /** A connection whose gateway is draining is replaced. */
  lemma HandlingConnects(s: System, i: nat) returns (es: seq<Event>)
    requires s.phase == Selecting && At(s, i, Handling) && !s.cancelled
    ensures Connects(s, es)
  {
    var e := ReadEnds(i, GatewayDraining, false);
    assert Find(GatewayDraining, DrainingKind).Some?;
    var later := PreparingConnects(Step(s, e), |s.conns|);
    es := [e] + later;
    ConnectsLater(s, e, later);
  }

  lemma LaunchConnects(s: System, e: Event) returns (es: seq<Event>)
    requires (e == BackoffElapses && s.phase == Waiting) || (e == Initiate && s.phase == Selecting && !s.initiated)
    requires s.loop.attempts < 5
    ensures Connects(s, es)
  {
    var later := PreparingConnects(Step(s, e), |s.conns|);
    es := [e] + later;
    ConnectsLater(s, e, later);
  }

  lemma ReportingConnects(s: System, i: nat) returns (es: seq<Event>)
    requires s.phase == Selecting && AtReport(s, i) && !Fatal(s.loop, s.conns[i].phase.report) && s.loop.attempts < 5
    ensures Connects(s, es)
  {
    JudgeKeepsAttempts(s.loop, s.conns[i].phase.report);
    var later := LaunchConnects(Step(s, LoopSeesReport(i)), BackoffElapses);
    es := [LoopSeesReport(i)] + later;
    ConnectsLater(s, LoopSeesReport(i), later);
  }

  /** The loop has ended, or ends with its next step: all five launches failed, or a report that ends it is due. */
  ghost predicate Lost(s: System) {
    || s.phase.Ended?
    || (s.phase == Waiting && s.loop.attempts == 5)
    || (s.phase == Selecting && exists i: nat :: LastReport(s, i))
  }

  /** A report that is due and that no launch follows. */
  predicate LastReport(s: System, i: nat) {
    AtReport(s, i) && (Fatal(s.loop, s.conns[i].phase.report) || s.loop.attempts == 5)
  }

  lemma LostStaysLost(s: System, e: Event)
    requires DebtInv(s) && Lost(s)
    ensures Lost(Step(s, e)) && s.log <= Step(s, e).log
    ensures forall k :: |s.log| <= k < |Step(s, e).log| ==> Step(s, e).log[k] != Connected
  {
    if s.phase == Selecting && Enabled(s, e) {
      var i: nat :| LastReport(s, i);
      ReportingStaysLost(s, e, i);
    } else if s.phase == Waiting && Enabled(s, e) {
      forall i: nat | i < |s.conns| ensures !Owes(s.conns[i]) {
        assert i !in Debtors(s.conns);
      }
    }
  }

  lemma ReportingStaysLost(s: System, e: Event, i: nat)
    requires DebtInv(s) && s.phase == Selecting && Enabled(s, e)
    requires LastReport(s, i)
    ensures Lost(Step(s, e)) && s.log <= Step(s, e).log
    ensures forall k :: |s.log| <= k < |Step(s, e).log| ==> Step(s, e).log[k] != Connected
  {
    DebtorIsTheOne(s, i);
    forall j: nat | j < |s.conns| && j != i ensures !Owes(s.conns[j]) {
      assert j !in Debtors(s.conns);
    }
    if e.LoopSeesReport? {
      JudgeKeepsAttempts(s.loop, s.conns[i].phase.report);
    } else {
      assert Step(s, e).phase == Selecting ==> LastReport(Step(s, e), i);
    }
  }

  lemma {:induction false} LostNeverConnects(s: System, es: seq<Event>)
    requires DebtInv(s) && Lost(s)
    ensures !Connects(s, es) && |s.log| <= |Onward(s, es).log|
    decreases |es|
  {
    if es != [] {
      StepKeepsDebt(s, es[0]);
      LostStaysLost(s, es[0]);
      LostNeverConnects(Step(s, es[0]), es[1..]);
      OnwardKeepsLog(Step(s, es[0]), es[1..]);
    }
  }

  lemma {:induction false} OnwardKeepsLog(s: System, es: seq<Event>)
    ensures s.log <= Onward(s, es).log
    decreases |es|
  {
    if es != [] {
      StepKeepsLog(s, es[0]);
      OnwardKeepsLog(Step(s, es[0]), es[1..]);
    }
  }

  lemma StepKeepsLog(s: System, e: Event)
    ensures s.log <= Step(s, e).log
  {
  }

  lemma NotLostConnects(s: System) returns (es: seq<Event>)
    requires DebtInv(s) && !Lost(s) && !s.cancelled && s.loop.attempts <= 5 && (!s.initiated ==> s.loop.attempts == 0)
    ensures Connects(s, es)
  {
    if s.phase == Waiting {
      es := LaunchConnects(s, BackoffElapses);
    } else if !s.initiated {
      es := LaunchConnects(s, Initiate);
    } else {
      var i: nat :| i < |s.conns| && Debtors(s.conns) == {i};
      assert i in Debtors(s.conns);
      match s.conns[i].phase
      case Preparing => es := PreparingConnects(s, i);
      case Announcing => es := AnnouncingConnects(s, i);
      case Handling => es := HandlingConnects(s, i);
      case Reporting(_) =>
        assert !LastReport(s, i);
        es := ReportingConnects(s, i);
      case _ =>
    }
  }

  lemma LostMeans(s: System)
    requires DebtInv(s) && s.loop.attempts == Launches(s.log) <= 5
    ensures !Lost(s) <==>
      && !s.phase.Ended? && !(s.phase == Waiting && Launches(s.log) == 5)
      && forall i: nat :: AtReport(s, i) ==> !Fatal(s.loop, s.conns[i].phase.report) && Launches(s.log) < 5
  {
    forall i: nat | AtReport(s, i)
      ensures s.phase != Waiting && (LastReport(s, i)
        <==> !(!Fatal(s.loop, s.conns[i].phase.report) && Launches(s.log) < 5))
    {
      DebtorIsTheOne(s, i);
    }
  }

  /** From any state of an uncancelled worker another connected event can be reached exactly unless the loop has
      ended, its five launches since the last one have all failed, or a report that ends it is waiting. */
  lemma CanConnectIff(keys: Keys, es: seq<Event>)
    requires !After(keys, es).cancelled
    ensures var s := After(keys, es);
      (exists more :: Connects(s, more)) <==>
        && !s.phase.Ended? && !(s.phase == Waiting && Launches(s.log) == 5)
        && forall i: nat :: AtReport(s, i) ==> !Fatal(s.loop, s.conns[i].phase.report) && Launches(s.log) < 5
  {
    var s := After(keys, es);
    DebtAlways(keys, es);
    WindowAlways(keys, es);
    BoundedReconnection(keys, es);
    if Lost(s) {
      forall more ensures !Connects(s, more) {
        LostNeverConnects(s, more);
      }
    } else {
      var more := NotLostConnects(s);
    }
    LostMeans(s);
  }
}
