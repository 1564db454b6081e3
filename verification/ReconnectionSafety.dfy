/** What holds over every run of the loop and its connections. */
module ReconnectionSafety {
  import opened Json
  import opened Errors
  import opened ConnectReports
  import opened RunLoop
  import opened Reconnection

  /** The events in which only a connection moves on, or the worker is cancelled. */
  predicate Local(e: Event) {
    match e
    case CancelWorker => true
    case PrepareSucceeds(_) | PrepareFails(_, _) | FlushFails(_, _) | ShutdownDone(_) | DrainOver(_) => true
    case ReadEnds(_, err, _) => !Is(err, DrainingKind)
    case _ => false
  }

  lemma LocalLeavesLoop(s: System, e: Event)
    requires Local(e)
    ensures Step(s, e).log == s.log && Step(s, e).loop == s.loop && Step(s, e).phase == s.phase
    ensures Step(s, e).initiated == s.initiated
  {
  }

  /* ---------- who owes a report ---------- */

  lemma DebtorIsTheOne(s: System, i: nat)
    requires DebtInv(s) && i < |s.conns| && Owes(s.conns[i])
    ensures s.phase != Waiting && (s.phase.Ended? ==> s.phase.owed) && s.initiated
    ensures Debtors(s.conns) == {i} && s.conns[i].key == s.loop.auth.key
  {
    assert i in Debtors(s.conns);
  }

  /** A connection that still owes its report moves on; the debt stays with it. */
  lemma MoveKeepsDebt(s: System, i: nat, phase: Phase, log: seq<Note>, loop: Loop)
    requires DebtInv(s) && i < |s.conns| && Owes(s.conns[i]) && !phase.Draining? && !phase.Gone?
    requires loop.auth == s.loop.auth
    ensures DebtInv(s.(conns := SetPhase(s.conns, i, phase), log := log, loop := loop))
  {
    DebtorIsTheOne(s, i);
    DebtorsAfterSet(s.conns, i, phase);
    assert Debtors(SetPhase(s.conns, i, phase)) == {i};
  }

  /** A report taken off a connection leaves no debtor behind. */
  lemma ReportSettles(s: System, i: nat)
    requires DebtInv(s) && AtReport(s, i)
    ensures Debtors(SetPhase(s.conns, i, Gone)) == {}
  {
    DebtorIsTheOne(s, i);
    DebtorsAfterSet(s.conns, i, Gone);
  }

  lemma LaunchMakesDebtor(s: System)
    requires Debtors(s.conns) == {} && s.phase != Ended(true)
    ensures DebtInv(Proceed(s))
  {
    DebtorsAfterLaunch(s.conns, s.loop.auth.key);
    var s' := Proceed(s);
    if s.loop.attempts != MAX_ATTEMPTS {
      assert Debtors(s'.conns) == {|s.conns|};
    }
  }

  /** Draining hands the debt to the replacement. */
  lemma DrainHandsOver(s: System, i: nat, log: seq<Note>)
    requires DebtInv(s) && At(s, i, Handling)
    ensures DebtInv(s.(conns := SetPhase(s.conns, i, Draining) + [Conn(Preparing, s.conns[i].key)], log := log))
  {
    DebtorIsTheOne(s, i);
    var mid := SetPhase(s.conns, i, Draining);
    DebtorsAfterSet(s.conns, i, Draining);
    DebtorsAfterLaunch(mid, s.conns[i].key);
    assert Debtors(mid + [Conn(Preparing, s.conns[i].key)]) == {|s.conns|};
  }

  lemma StepKeepsDebt(s: System, e: Event)
    requires DebtInv(s)
    ensures DebtInv(Step(s, e))
  {
    if Enabled(s, e) {
      match e
      case Initiate => LaunchMakesDebtor(s);
      case BackoffElapses => LaunchMakesDebtor(s);
      case LoopSeesConnected(i) => MoveKeepsDebt(s, i, Handling, s.log + [Connected], Welcome(s.loop));
      case LoopSeesReport(i) => DebtorIsTheOne(s, i); ReportSettles(s, i);
      case FinalReport(i) => ReportSettles(s, i);
      case PrepareSucceeds(i) => MoveKeepsDebt(s, i, Announcing, s.log, s.loop);
      case PrepareFails(i, failure) =>
        MoveKeepsDebt(s, i, Reporting(PrepareReport(PrepareError(failure).value)), s.log, s.loop);
      case FlushFails(i, err) =>
        MoveKeepsDebt(s, i, Reporting(HandleReport(Reconnect(Wrapf("could not send buffered messages", err)))),
            s.log, s.loop);
      case ReadEnds(i, err, missed) =>
        if Is(err, DrainingKind) {
          DrainHandsOver(s, i, s.log + [Launched(s.conns[i].key, false)]);
        } else {
          MoveKeepsDebt(s, i, Reporting(HandleReport(LossError(err, missed))), s.log, s.loop);
        }
      case ShutdownDone(i) => MoveKeepsDebt(s, i, Reporting(SHUTDOWN), s.log, s.loop);
      case DrainOver(i) => DebtorsAfterSet(s.conns, i, Gone);
      case _ =>
    }
  }

  lemma {:induction false} DebtAlways(keys: Keys, es: seq<Event>)
    ensures DebtInv(After(keys, es))
    decreases |es|
  {
    if es != [] {
      DebtAlways(keys, es[..|es| - 1]);
      StepKeepsDebt(After(keys, es[..|es| - 1]), es[|es| - 1]);
    }
  }

  /** After the first launch and until the loop ends, exactly one connection owes a report or the loop is
      between a report and the next launch; the connection that owes it was launched with the key the loop
      holds. After the end a report is still to come exactly when the loop ended by seeing the cancellation
      in its select, and nobody has taken that report yet. */
  lemma OneReportOwner(keys: Keys, es: seq<Event>)
    ensures var s := After(keys, es);
      && (s.initiated && !s.phase.Ended? ==> |Debtors(s.conns)| + (if s.phase == Waiting then 1 else 0) == 1)
      && (s.phase.Ended? ==> |Debtors(s.conns)| == if s.phase.owed then 1 else 0)
      && (forall d :: d in Debtors(s.conns) ==> s.conns[d].key == s.loop.auth.key)
  {
    DebtAlways(keys, es);
  }

  /* ---------- the one-shot initial signal ---------- */

  /** What a connection has behind it, by where it is. */
  ghost predicate ConnInv(s: System, c: Conn) {
    match c.phase
    case Handling => Connected in s.log
    case Draining => Connected in s.log
    case Reporting(r) => (r.reconnect && r.err.Some?) || (r == SHUTDOWN && s.cancelled && Connected in s.log)
    case _ => true
  }

  ghost predicate SignalInv(s: System) {
    && (forall i :: 0 <= i < |s.conns| ==> ConnInv(s, s.conns[i]))
    && (s.loop.isInitial <==> s.loop.signals == []) && |s.loop.signals| <= 1
    && (Connected in s.log ==> !s.loop.isInitial)
    && (true in s.loop.signals ==> Connected in s.log || s.cancelled)
  }

  lemma MoveKeepsSignals(s: System, i: nat, phase: Phase)
    requires SignalInv(s) && i < |s.conns| && ConnInv(s, Conn(phase, s.conns[i].key))
    ensures SignalInv(s.(conns := SetPhase(s.conns, i, phase)))
  {
  }

  /** A connection's report that ends the loop without an error comes after the initial signal. */
  lemma ReportKeepsSignals(s: System, i: nat)
    requires SignalInv(s) && Enabled(s, LoopSeesReport(i))
    ensures SignalInv(Step(s, LoopSeesReport(i)))
  {
    assert ConnInv(s, s.conns[i]);
    var s' := Step(s, LoopSeesReport(i));
    assert Connected in s.log <==> Connected in s'.log;
    forall j | 0 <= j < |s'.conns|
      ensures ConnInv(s', s'.conns[j])
    {
      assert ConnInv(s, s.conns[j]);
    }
  }

  lemma ConnectedKeepsSignals(s: System, i: nat)
    requires SignalInv(s) && Enabled(s, LoopSeesConnected(i))
    ensures SignalInv(Step(s, LoopSeesConnected(i)))
  {
    var s' := Step(s, LoopSeesConnected(i));
    assert s'.log[|s.log|] == Connected;
    forall j | 0 <= j < |s'.conns|
      ensures ConnInv(s', s'.conns[j])
    {
      assert ConnInv(s, s.conns[j]);
    }
  }

  /** Events that add a connection or change no connection. */
  lemma RestKeepsSignals(s: System, s': System)
    requires SignalInv(s)
    requires s.conns <= s'.conns && forall i :: |s.conns| <= i < |s'.conns| ==> s'.conns[i].phase == Preparing
    requires s.log <= s'.log && (Connected in s'.log ==> Connected in s.log) && (s.cancelled ==> s'.cancelled)
    requires (s'.loop.signals == s.loop.signals && s'.loop.isInitial == s.loop.isInitial)
      || s'.loop == Announce(s.loop, false) || (s'.loop == Announce(s.loop, true) && s'.cancelled)
    ensures SignalInv(s')
  {
    assert Connected in s.log ==> Connected in s'.log;
    forall j | 0 <= j < |s'.conns|
      ensures ConnInv(s', s'.conns[j])
    {
      if j < |s.conns| { assert ConnInv(s, s.conns[j]); assert s'.conns[j] == s.conns[j]; }
    }
  }

  /** The report of a lost or never made connection is reconnectable. */
  lemma FailureKeepsSignals(s: System, i: nat, r: Report)
    requires SignalInv(s) && i < |s.conns| && r.reconnect && r.err.Some?
    ensures SignalInv(s.(conns := SetPhase(s.conns, i, Reporting(r))))
  {
    MoveKeepsSignals(s, i, Reporting(r));
  }

  lemma LossKeepsSignals(s: System, i: nat, err: GoErr, missed: bool)
    requires SignalInv(s) && At(s, i, Handling) && !Is(err, DrainingKind)
    ensures SignalInv(Step(s, ReadEnds(i, err, missed)))
  {
    LossReportsExactly(err, missed);
    FailureKeepsSignals(s, i, HandleReport(LossError(err, missed)));
  }

  lemma DrainKeepsSignals(s: System, i: nat, err: GoErr, missed: bool)
    requires SignalInv(s) && At(s, i, Handling) && !s.cancelled && Is(err, DrainingKind)
    ensures SignalInv(Step(s, ReadEnds(i, err, missed)))
  {
    assert ConnInv(s, s.conns[i]);
    MoveKeepsSignals(s, i, Draining);
    RestKeepsSignals(s.(conns := SetPhase(s.conns, i, Draining)), Step(s, ReadEnds(i, err, missed)));
  }

  /** Events that change one connection and nothing of the loop's variables. */
  lemma PhaseKeepsSignals(s: System, e: Event)
    requires SignalInv(s) && Enabled(s, e)
    requires e.PrepareSucceeds? || e.PrepareFails? || e.FlushFails? || e.ShutdownDone? || e.DrainOver? || e.FinalReport?
    ensures SignalInv(Step(s, e))
  {
    match e
    case FinalReport(i) => MoveKeepsSignals(s, i, Gone);
    case PrepareSucceeds(i) => MoveKeepsSignals(s, i, Announcing);
    case PrepareFails(i, failure) =>
      PrepareReportsExactly(failure);
      FailureKeepsSignals(s, i, PrepareReport(PrepareError(failure).value));
    case FlushFails(i, err) =>
      FailureKeepsSignals(s, i, HandleReport(Reconnect(Wrapf("could not send buffered messages", err))));
    case ShutdownDone(i) => assert ConnInv(s, s.conns[i]); MoveKeepsSignals(s, i, Reporting(SHUTDOWN));
    case DrainOver(i) => MoveKeepsSignals(s, i, Gone);
  }

  lemma StepKeepsSignals(s: System, e: Event)
    requires SignalInv(s)
    ensures SignalInv(Step(s, e))
  {
    if Enabled(s, e) {
      match e
      case Initiate => RestKeepsSignals(s, Step(s, e));
      case CancelWorker => RestKeepsSignals(s, Step(s, e));
      case LoopSeesCancel => RestKeepsSignals(s, Step(s, e));
      case LoopSeesConnected(i) => ConnectedKeepsSignals(s, i);
      case LoopSeesReport(i) => ReportKeepsSignals(s, i);
      case BackoffElapses => RestKeepsSignals(s, Step(s, e));
      case BackoffCancelled => RestKeepsSignals(s, Step(s, e));
      case ReadEnds(i, err, missed) =>
        if Is(err, DrainingKind) {
          DrainKeepsSignals(s, i, err, missed);
        } else {
          LossKeepsSignals(s, i, err, missed);
        }
      case _ => PhaseKeepsSignals(s, e);
    }
  }

  lemma {:induction false} SignalsAlways(keys: Keys, es: seq<Event>)
    ensures SignalInv(After(keys, es))
    decreases |es|
  {
    if es != [] {
      SignalsAlways(keys, es[..|es| - 1]);
      StepKeepsSignals(After(keys, es[..|es| - 1]), es[|es| - 1]);
    }
  }

  /** initialConnectionDone is sent at most once; nil only after a connection was established or the worker
      was cancelled; and a report that asks for no reconnection never finds the signal still unsent, so the
      send of lines 225 to 228 is unreachable. */
  lemma OneInitialSignal(keys: Keys, es: seq<Event>)
    ensures var s := After(keys, es);
      && |s.loop.signals| <= 1
      && (true in s.loop.signals ==> Connected in s.log || s.cancelled)
      && (forall i :: 0 <= i < |s.conns| && s.conns[i].phase.Reporting? && !s.conns[i].phase.report.reconnect ==>
            !s.loop.isInitial && s.conns[i].phase.report.err == None)
  {
    SignalsAlways(keys, es);
    var s := After(keys, es);
    forall i | 0 <= i < |s.conns| && s.conns[i].phase.Reporting? && !s.conns[i].phase.report.reconnect
      ensures !s.loop.isInitial && s.conns[i].phase.report.err == None
    {
      assert ConnInv(s, s.conns[i]);
    }
  }

  /* ---------- the signing key ---------- */

  predicate Refusal(n: Note) {
    n.Reported? && n.report.err.Some? && Is(n.report.err.value, UnauthenticatedKind)
  }

  /** The reports so far that said the key was refused. */
  function Refusals(log: seq<Note>): nat {
    if log == [] then 0 else Refusals(log[..|log| - 1]) + (if Refusal(log[|log| - 1]) then 1 else 0)
  }

  function KeyAfter(keys: Keys, refusals: nat): Auth {
    if refusals == 0 then Auth(keys.primary, false) else Auth(keys.fallback, true)
  }

  /** Every connection was launched with the key due at that moment. */
  ghost predicate LaunchKeys(keys: Keys, log: seq<Note>) {
    forall k :: 0 <= k < |log| && log[k].Launched? ==> log[k].key == KeyAfter(keys, Refusals(log[..k])).key
  }

  lemma LogGrows(keys: Keys, log: seq<Note>, n: Note)
    ensures Refusals(log + [n]) == Refusals(log) + (if Refusal(n) then 1 else 0)
    ensures (LaunchKeys(keys, log) && (n.Launched? ==> n.key == KeyAfter(keys, Refusals(log)).key)
      ==> LaunchKeys(keys, log + [n]))
  {
    assert (log + [n])[..|log|] == log;
    forall k | 0 <= k < |log|
      ensures (log + [n])[..k] == log[..k]
    {
    }
  }

  ghost predicate KeyDue(keys: Keys, log: seq<Note>, auth: Auth, phase: LoopPhase) {
    && LaunchKeys(keys, log) && Refusals(log) <= 2
    && (phase != Ended(false) ==>
          auth == KeyAfter(keys, Refusals(log)) && Refusals(log) <= 1 && (Refusals(log) == 1 ==> keys.fallback != ""))
  }

  ghost predicate KeyInv(keys: Keys, s: System) {
    s.loop.keys == keys && KeyDue(keys, s.log, s.loop.auth, s.phase)
  }

  lemma NotedKeyDue(keys: Keys, log: seq<Note>, auth: Auth, phase: LoopPhase, n: Note)
    requires KeyDue(keys, log, auth, phase) && !n.Reported?
    requires n.Launched? ==> phase != Ended(false) && n.key == auth.key
    ensures KeyDue(keys, log + [n], auth, phase)
  {
    LogGrows(keys, log, n);
  }

  lemma ReportedKeyDue(keys: Keys, log: seq<Note>, auth: Auth, r: Report)
    requires KeyDue(keys, log, auth, Selecting)
    ensures forall a :: KeyDue(keys, log + [Reported(r)], a, Ended(false))
    ensures (Refusal(Reported(r)) ==> !auth.fallback && keys.fallback != "") ==>
      KeyDue(keys, log + [Reported(r)], if Refusal(Reported(r)) then Auth(keys.fallback, true) else auth, Waiting)
  {
    LogGrows(keys, log, Reported(r));
  }

  /** A report the loop survives leaves it with the key due after it. */
  lemma SurvivedReport(l: Loop, r: Report)
    requires !Fatal(l, r)
    ensures Refusal(Reported(r)) ==> !l.auth.fallback && l.keys.fallback != ""
    ensures Judge(l, r).auth == if Refusal(Reported(r)) then Auth(l.keys.fallback, true) else l.auth
  {
  }

  lemma JudgeKeepsKey(keys: Keys, s: System, i: nat)
    requires KeyInv(keys, s) && Enabled(s, LoopSeesReport(i))
    ensures KeyInv(keys, Step(s, LoopSeesReport(i)))
  {
    var r := s.conns[i].phase.report;
    ReportedKeyDue(keys, s.log, s.loop.auth, r);
    if !Fatal(s.loop, r) {
      SurvivedReport(s.loop, r);
      NotedKeyDue(keys, s.log + [Reported(r)], Judge(s.loop, r).auth, Waiting, Waits(ExpBackoff(s.loop.attempts)));
    }
  }

  lemma LaunchKeepsKey(keys: Keys, s: System)
    requires KeyInv(keys, s) && s.phase != Ended(false)
    ensures KeyInv(keys, Proceed(s))
  {
    NotedKeyDue(keys, s.log, s.loop.auth, s.phase, Launched(s.loop.auth.key, true));
  }

  lemma DrainKeepsKey(keys: Keys, s: System, i: nat)
    requires KeyInv(keys, s) && DebtInv(s) && At(s, i, Handling)
    ensures KeyDue(keys, s.log + [Launched(s.conns[i].key, false)], s.loop.auth, s.phase)
  {
    DebtorIsTheOne(s, i);
    NotedKeyDue(keys, s.log, s.loop.auth, s.phase, Launched(s.conns[i].key, false));
  }

  lemma StepKeepsKey(keys: Keys, s: System, e: Event)
    requires KeyInv(keys, s) && DebtInv(s)
    ensures KeyInv(keys, Step(s, e))
  {
    if Local(e) {
      LocalLeavesLoop(s, e);
    } else if Enabled(s, e) {
      match e
      case Initiate => LaunchKeepsKey(keys, s);
      case BackoffElapses => LaunchKeepsKey(keys, s);
      case LoopSeesConnected(i) => NotedKeyDue(keys, s.log, s.loop.auth, s.phase, Connected);
      case LoopSeesReport(i) => JudgeKeepsKey(keys, s, i);
      case ReadEnds(i, _, _) => DrainKeepsKey(keys, s, i);
      case _ =>
    }
  }

  lemma {:induction false} KeyAlways(keys: Keys, es: seq<Event>)
    ensures KeyInv(keys, After(keys, es))
    decreases |es|
  {
    if es != [] {
      KeyAlways(keys, es[..|es| - 1]);
      DebtAlways(keys, es[..|es| - 1]);
      StepKeepsKey(keys, After(keys, es[..|es| - 1]), es[|es| - 1]);
    }
  }

  /** Every connection, also one launched by a draining predecessor, uses the primary key until the first
      report of a refusal and the fallback key from then on; while the loop runs it holds the key of that
      rule; a second refusal, or the first without a fallback key, ends the loop, and no third is seen. */
  lemma KeyFallsBackOnce(keys: Keys, es: seq<Event>)
    ensures var s := After(keys, es);
      && (forall k :: 0 <= k < |s.log| && s.log[k].Launched? ==>
            s.log[k].key == if Refusals(s.log[..k]) == 0 then keys.primary else keys.fallback)
      && (!s.phase.Ended? ==>
            s.loop.auth == if Refusals(s.log) == 0 then Auth(keys.primary, false) else Auth(keys.fallback, true))
      && (Refusals(s.log) >= (if keys.fallback == "" then 1 else 2) ==> s.phase.Ended?)
      && Refusals(s.log) <= 2
  {
    KeyAlways(keys, es);
  }

  /* ---------- bounded reconnection ---------- */

  /** Since the last connected event, or since the start: the launches by the loop, the waits in order, and
      the reports. */
  function Launches(log: seq<Note>): nat {
    if log == [] || log[|log| - 1].Connected? then 0
    else Launches(log[..|log| - 1]) + (if log[|log| - 1].Launched? && log[|log| - 1].byLoop then 1 else 0)
  }

  function Delays(log: seq<Note>): seq<nat> {
    if log == [] || log[|log| - 1].Connected? then []
    else Delays(log[..|log| - 1]) + (if log[|log| - 1].Waits? then [log[|log| - 1].seconds] else [])
  }

  function Reports(log: seq<Note>): nat {
    if log == [] || log[|log| - 1].Connected? then 0
    else Reports(log[..|log| - 1]) + (if log[|log| - 1].Reported? then 1 else 0)
  }

  lemma CountsGrow(log: seq<Note>, n: Note)
    ensures Launches(log + [n])
      == if n.Connected? then 0 else Launches(log) + (if n.Launched? && n.byLoop then 1 else 0)
    ensures Delays(log + [n]) == if n.Connected? then [] else Delays(log) + (if n.Waits? then [n.seconds] else [])
    ensures Reports(log + [n]) == if n.Connected? then 0 else Reports(log) + (if n.Reported? then 1 else 0)
  {
    assert (log + [n])[..|log|] == log;
  }

  /** The first wait after a connected event is the table's first entry; before any it is the second. */
  function Base(log: seq<Note>): nat { if Connected in log then 0 else 1 }

  /** The waits are consecutive entries of the table. */
  ghost predicate Consecutive(delays: seq<nat>, lo: nat) {
    forall k :: 0 <= k < |delays| ==> delays[k] == ExpBackoff(lo + k)
  }

  ghost predicate Window(log: seq<Note>, attempts: nat, initiated: bool, phase: LoopPhase) {
    var hi := Base(log) + |Delays(log)|;
    && attempts == Launches(log) <= MAX_ATTEMPTS
    && hi <= MAX_ATTEMPTS + 1 && Consecutive(Delays(log), Base(log))
    && (!initiated ==> log == [])
    && (initiated && phase == Selecting ==> hi == attempts && Reports(log) == |Delays(log)|)
    && (phase == Waiting ==> initiated && hi == attempts + 1 && Reports(log) == |Delays(log)|)
    && (phase.Ended? ==> Reports(log) <= MAX_ATTEMPTS + 1)
  }

  ghost predicate WindowInv(s: System) {
    Window(s.log, s.loop.attempts, s.initiated, s.phase)
  }

  lemma ReportGrows(log: seq<Note>, r: Report)
    ensures Launches(log + [Reported(r)]) == Launches(log) && Delays(log + [Reported(r)]) == Delays(log)
    ensures Reports(log + [Reported(r)]) == Reports(log) + 1 && Base(log + [Reported(r)]) == Base(log)
  {
    CountsGrow(log, Reported(r));
  }

  lemma WaitGrows(log: seq<Note>, seconds: nat)
    ensures Launches(log + [Waits(seconds)]) == Launches(log)
    ensures Delays(log + [Waits(seconds)]) == Delays(log) + [seconds]
    ensures Reports(log + [Waits(seconds)]) == Reports(log) && Base(log + [Waits(seconds)]) == Base(log)
  {
    CountsGrow(log, Waits(seconds));
  }

  lemma ReportedWindow(log: seq<Note>, attempts: nat, r: Report)
    requires Window(log, attempts, true, Selecting)
    ensures Window(log + [Reported(r)], attempts, true, Ended(false))
    ensures Window(log + [Reported(r)] + [Waits(ExpBackoff(attempts))], attempts, true, Waiting)
  {
    ReportGrows(log, r);
    WaitGrows(log + [Reported(r)], ExpBackoff(attempts));
  }

  lemma LaunchedWindow(log: seq<Note>, attempts: nat, initiated: bool, phase: LoopPhase, key: string)
    requires Window(log, attempts, initiated, phase) && (phase == Waiting || (phase == Selecting && !initiated))
    ensures attempts != MAX_ATTEMPTS ==> Window(log + [Launched(key, true)], attempts + 1, true, Selecting)
    ensures Window(log, attempts, initiated, Ended(false))
  {
    CountsGrow(log, Launched(key, true));
    assert Base(log + [Launched(key, true)]) == Base(log);
  }

  lemma ReplacedWindow(log: seq<Note>, attempts: nat, phase: LoopPhase, key: string)
    requires Window(log, attempts, true, phase)
    ensures Window(log + [Launched(key, false)], attempts, true, phase)
  {
    CountsGrow(log, Launched(key, false));
    assert Base(log + [Launched(key, false)]) == Base(log);
  }

  lemma ConnectedWindow(log: seq<Note>)
    ensures Window(log + [Connected], 0, true, Selecting)
  {
    CountsGrow(log, Connected);
    assert (log + [Connected])[|log|] == Connected;
  }

  lemma JudgeKeepsAttempts(l: Loop, r: Report)
    ensures Judge(l, r).attempts == l.attempts
  {
  }

  lemma ReportKeepsWindow(s: System, i: nat)
    requires WindowInv(s) && s.initiated && Enabled(s, LoopSeesReport(i))
    ensures WindowInv(Step(s, LoopSeesReport(i)))
  {
    var r := s.conns[i].phase.report;
    JudgeKeepsAttempts(s.loop, r);
    ReportedWindow(s.log, s.loop.attempts, r);
  }

  lemma LaunchKeepsWindow(s: System)
    requires WindowInv(s) && (s.phase == Waiting || (s.phase == Selecting && !s.initiated))
    ensures WindowInv(Proceed(s))
  {
    LaunchedWindow(s.log, s.loop.attempts, s.initiated, s.phase, s.loop.auth.key);
  }

  lemma StepKeepsWindow(s: System, e: Event)
    requires WindowInv(s) && DebtInv(s)
    ensures WindowInv(Step(s, e))
  {
    if Local(e) {
      LocalLeavesLoop(s, e);
    } else if Enabled(s, e) {
      match e
      case Initiate => LaunchKeepsWindow(s);
      case BackoffElapses => LaunchKeepsWindow(s);
      case LoopSeesConnected(i) => DebtorIsTheOne(s, i); ConnectedWindow(s.log);
      case LoopSeesReport(i) => DebtorIsTheOne(s, i); ReportKeepsWindow(s, i);
      case ReadEnds(i, _, _) =>
        DebtorIsTheOne(s, i);
        ReplacedWindow(s.log, s.loop.attempts, s.phase, s.conns[i].key);
      case _ =>
    }
  }

  lemma {:induction false} WindowAlways(keys: Keys, es: seq<Event>)
    ensures WindowInv(After(keys, es))
    decreases |es|
  {
    if es != [] {
      WindowAlways(keys, es[..|es| - 1]);
      DebtAlways(keys, es[..|es| - 1]);
      StepKeepsWindow(After(keys, es[..|es| - 1]), es[|es| - 1]);
    }
  }

  lemma BackoffRises(i: nat, j: nat)
    requires i < j <= 5
    ensures ExpBackoff(i) < ExpBackoff(j) <= 30
  {
  }

  lemma DelaysRise(s: System)
    requires WindowInv(s)
    ensures forall i, j :: 0 <= i < j < |Delays(s.log)| ==> Delays(s.log)[i] < Delays(s.log)[j] <= 30
  {
    forall i, j | 0 <= i < j < |Delays(s.log)|
      ensures Delays(s.log)[i] < Delays(s.log)[j] <= 30
    {
      BackoffRises(Base(s.log) + i, Base(s.log) + j);
    }
  }

  /** Between two connected events the loop launches at most five connections, waits strictly longer each
      time and never reaches the capped entry of the table, and takes at most six reports; the wait after
      the fifth launch is the last one. */
  lemma BoundedReconnection(keys: Keys, es: seq<Event>)
    ensures var s := After(keys, es); var delays := Delays(s.log);
      && Launches(s.log) == s.loop.attempts <= 5
      && (forall i, j :: 0 <= i < j < |delays| ==> delays[i] < delays[j])
      && (forall i :: 0 <= i < |delays| ==>
            Base(s.log) + i < 6 && delays[i] == [1, 2, 5, 10, 20, 30][Base(s.log) + i])
      && Reports(s.log) <= 6
      && (s.phase == Waiting && s.loop.attempts == 5 ==> Step(s, BackoffElapses).phase.Ended?)
      && (Reports(s.log) == 6 ==> s.phase.Ended? || (s.phase == Waiting && s.loop.attempts == 5))
  {
    WindowAlways(keys, es);
    DelaysRise(After(keys, es));
  }

  /* ---------- the state shown to the caller ---------- */

  /** What the latest connected event or report says. */
  function Shown(log: seq<Note>): ConnectionState {
    if log == [] then Connecting
    else
      match log[|log| - 1]
      case Connected => Active
      case Reported(r) => if r.reconnect then Reconnecting else Closed
      case _ => Shown(log[..|log| - 1])
  }

  lemma ShownGrows(log: seq<Note>, n: Note)
    ensures Shown(log + [n]) ==
      if n.Connected? then Active
      else if n.Reported? then (if n.report.reconnect then Reconnecting else Closed)
      else Shown(log)
  {
    assert (log + [n])[..|log|] == log;
  }

  lemma ReportShown(s: System, i: nat)
    requires Enabled(s, LoopSeesReport(i))
    ensures var s' := Step(s, LoopSeesReport(i)); s'.loop.state == Shown(s'.log)
  {
    var r := s.conns[i].phase.report;
    ShownGrows(s.log, Reported(r));
    ShownGrows(s.log + [Reported(r)], Waits(ExpBackoff(s.loop.attempts)));
  }

  lemma LaunchShown(s: System)
    requires s.loop.state == Shown(s.log)
    ensures Proceed(s).loop.state == Shown(Proceed(s).log)
  {
    ShownGrows(s.log, Launched(s.loop.auth.key, true));
  }

  lemma StepKeepsShown(s: System, e: Event)
    requires s.loop.state == Shown(s.log)
    ensures Step(s, e).loop.state == Shown(Step(s, e).log)
  {
    if Local(e) {
      LocalLeavesLoop(s, e);
    } else if Enabled(s, e) {
      match e
      case Initiate => LaunchShown(s);
      case BackoffElapses => LaunchShown(s);
      case LoopSeesConnected(_) => ShownGrows(s.log, Connected);
      case LoopSeesReport(i) => ReportShown(s, i);
      case ReadEnds(i, _, _) => ShownGrows(s.log, Launched(s.conns[i].key, false));
      case _ =>
    }
  }

  /** `State()` is CONNECTING until the loop has news, ACTIVE since the latest connection unless a report
      came after it (a draining gateway does not change it), and RECONNECTING or CLOSED after a report. */
  lemma {:induction false} StateIsShown(keys: Keys, es: seq<Event>)
    ensures After(keys, es).loop.state == Shown(After(keys, es).log)
    decreases |es|
  {
    if es != [] {
      StateIsShown(keys, es[..|es| - 1]);
      StepKeepsShown(After(keys, es[..|es| - 1]), es[|es| - 1]);
    }
  }
}
