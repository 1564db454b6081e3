/** The run loop together with the connection goroutines it launches: connect/handler.go and
    connect/connection.go as one state machine over the messages they exchange. */
module Reconnection {
  import opened Errors
  import opened ConnectReports
  import opened RunLoop

  /** Where a connection goroutine is. `Preparing` to `Handling` lead to a report or to a hand-over;
      `Reporting` is blocked on notifyConnectDoneChan; `Draining` waits for its replacement. */
  datatype Phase = Preparing | Announcing | Handling | Reporting(report: Report) | Draining | Gone

  /** A connection goroutine and the signing key it was launched with. */
  datatype Conn = Conn(phase: Phase, key: string)

  /** Where the loop is; after its end `owed` says whether a last report is still to come. */
  datatype LoopPhase = Selecting | Waiting | Ended(owed: bool)

  datatype Note = Launched(key: string, byLoop: bool) | Connected | Reported(report: Report) | Waits(seconds: nat)

  datatype System = System(
    loop: Loop, phase: LoopPhase, initiated: bool, cancelled: bool, conns: seq<Conn>, log: seq<Note>)

  function NewSystem(keys: Keys): System {
    System(NewLoop(keys), Selecting, false, false, [], [])
  }

  datatype Event =
    | Initiate
    | CancelWorker
    | LoopSeesCancel
    | LoopSeesConnected(conn: nat)
    | LoopSeesReport(conn: nat)
    | BackoffElapses
    | BackoffCancelled
    | FinalReport(conn: nat)
    | PrepareSucceeds(conn: nat)
    | PrepareFails(conn: nat, failure: Preparation)
    | FlushFails(conn: nat, err: GoErr)
    | ReadEnds(conn: nat, err: GoErr, missedHeartbeat: bool)
    | ShutdownDone(conn: nat)
    | DrainOver(conn: nat)

  predicate At(s: System, i: nat, phase: Phase) {
    i < |s.conns| && s.conns[i].phase == phase
  }

  predicate AtReport(s: System, i: nat) {
    i < |s.conns| && s.conns[i].phase.Reporting?
  }

  /** When an event can happen. A connection shuts down gracefully only once the worker is cancelled, and
      handles the end of reading as a loss only before. */
  predicate Enabled(s: System, e: Event) {
    match e
    case Initiate => s.phase == Selecting && !s.initiated
    case CancelWorker => true
    case LoopSeesCancel => s.phase == Selecting && s.cancelled
    case LoopSeesConnected(i) => s.phase == Selecting && At(s, i, Announcing)
    case LoopSeesReport(i) => s.phase == Selecting && AtReport(s, i)
    case BackoffElapses => s.phase == Waiting
    case BackoffCancelled => s.phase == Waiting && s.cancelled
    case FinalReport(i) => s.phase.Ended? && AtReport(s, i)
    case PrepareSucceeds(i) => At(s, i, Preparing)
    case PrepareFails(i, failure) => At(s, i, Preparing) && PrepareError(failure).Some?
    case FlushFails(i, _) => At(s, i, Handling)
    case ReadEnds(i, _, _) => At(s, i, Handling) && !s.cancelled
    case ShutdownDone(i) => At(s, i, Handling) && s.cancelled
    case DrainOver(i) => At(s, i, Draining)
  }

  function SetPhase(conns: seq<Conn>, i: nat, phase: Phase): seq<Conn>
    requires i < |conns|
  {
    conns[i := conns[i].(phase := phase)]
  }

  /** The loop body from line 326 on. */
  function Proceed(s: System): System {
    if s.loop.attempts == MAX_ATTEMPTS then s.(loop := Attempt(s.loop), phase := Ended(false))
    else s.(
      loop := Attempt(s.loop), phase := Selecting, initiated := true,
      conns := s.conns + [Conn(Preparing, s.loop.auth.key)], log := s.log + [Launched(s.loop.auth.key, true)])
  }

  /** The loop receives the report of connection `i`. */
  function Receive(s: System, i: nat): System
    requires AtReport(s, i)
  {
    var r := s.conns[i].phase.report;
    var s := s.(conns := SetPhase(s.conns, i, Gone), log := s.log + [Reported(r)], loop := Judge(s.loop, r));
    s
  }

  /** One step; an event that is not enabled does not happen. */
  function Step(s: System, e: Event): System {
    if !Enabled(s, e) then s
    else
    match e
    case Initiate => Proceed(s)
    case CancelWorker => s.(cancelled := true)
    case LoopSeesCancel => s.(phase := Ended(s.initiated))
    case LoopSeesConnected(i) =>
      s.(conns := SetPhase(s.conns, i, Handling), log := s.log + [Connected], loop := Welcome(s.loop))
    case LoopSeesReport(i) =>
      var next := Receive(s, i);
      if Fatal(s.loop, s.conns[i].phase.report) then next.(phase := Ended(false))
      else next.(phase := Waiting, log := next.log + [Waits(ExpBackoff(s.loop.attempts))])
    case BackoffElapses => Proceed(s)
    case BackoffCancelled => s.(loop := Announce(s.loop, true), phase := Ended(false))
    case FinalReport(i) => s.(conns := SetPhase(s.conns, i, Gone), phase := Ended(false))
    case PrepareSucceeds(i) => s.(conns := SetPhase(s.conns, i, Announcing))
    case PrepareFails(i, failure) =>
      s.(conns := SetPhase(s.conns, i, Reporting(PrepareReport(PrepareError(failure).value))))
    case FlushFails(i, err) =>
      var e := Reconnect(Wrapf("could not send buffered messages", err));
      s.(conns := SetPhase(s.conns, i, Reporting(HandleReport(e))))
    case ReadEnds(i, err, missed) =>
      if Is(err, DrainingKind) then
        s.(conns := SetPhase(s.conns, i, Draining) + [Conn(Preparing, s.conns[i].key)],
           log := s.log + [Launched(s.conns[i].key, false)])
      else s.(conns := SetPhase(s.conns, i, Reporting(HandleReport(LossError(err, missed)))))
    case ShutdownDone(i) => s.(conns := SetPhase(s.conns, i, Reporting(SHUTDOWN)))
    case DrainOver(i) => s.(conns := SetPhase(s.conns, i, Gone))
  }

  function After(keys: Keys, es: seq<Event>): System
    decreases |es|
  {
    if es == [] then NewSystem(keys) else Step(After(keys, es[..|es| - 1]), es[|es| - 1])
  }

  /** The connections that still have to report. */
  predicate Owes(c: Conn) {
    !c.phase.Draining? && !c.phase.Gone?
  }

  function Debtors(conns: seq<Conn>): set<nat> {
    set i: nat | i < |conns| && Owes(conns[i])
  }

  lemma DebtorsAfterSet(conns: seq<Conn>, i: nat, phase: Phase)
    requires i < |conns|
    ensures Debtors(SetPhase(conns, i, phase)) ==
      if phase.Draining? || phase.Gone? then Debtors(conns) - {i} else Debtors(conns) + {i}
  {
  }

  lemma DebtorsAfterLaunch(conns: seq<Conn>, key: string)
    ensures Debtors(conns + [Conn(Preparing, key)]) == Debtors(conns) + {|conns|}
  {
  }

  /** Somebody owes the loop a report: a single connection, which carries the loop's current key. */
  ghost predicate OneDebtor(s: System) {
    exists d: nat :: d < |s.conns| && Debtors(s.conns) == {d} && s.conns[d].key == s.loop.auth.key
  }

  /** Who owes a report, by what the loop is doing. */
  ghost predicate DebtInv(s: System) {
    match s.phase
    case Selecting => if s.initiated then OneDebtor(s) else Debtors(s.conns) == {}
    case Waiting => s.initiated && Debtors(s.conns) == {}
    case Ended(owed) => if owed then s.initiated && OneDebtor(s) else Debtors(s.conns) == {}
  }
}
