/** The loop goroutine of connect/handler.go: what each message it receives does to its variables. */
module RunLoop {
  import opened Json
  import opened Errors
  import opened ConnectReports

  datatype ConnectionState = Connecting | Active | Reconnecting | Closed

  /** The hashed signing keys; the empty fallback means there is none. */
  datatype Keys = Keys(primary: string, fallback: string)

  datatype Auth = Auth(key: string, fallback: bool)

  /** Seconds to wait before the next attempt. */
  const BACKOFF_TIMES: seq<nat> := [1, 2, 5, 10, 20, 30, 60, 120, 300]

  function ExpBackoff(attempt: nat): nat {
    if attempt >= |BACKOFF_TIMES| then BACKOFF_TIMES[|BACKOFF_TIMES| - 1] else BACKOFF_TIMES[attempt]
  }

  const MAX_ATTEMPTS := 5

  /** The close reasons after which the loop goes on. */
  const RETRIED_REASONS := {
    "connect_authentication_failed", "connect_gateway_closing", "connect_internal_error", "connect_worker_hello_timeout"
  }

  /** The loop's variables; `signals` is what it has sent on initialConnectionDone (true for nil). */
  datatype Loop = Loop(
    keys: Keys, state: ConnectionState, auth: Auth, attempts: nat, isInitial: bool, signals: seq<bool>)

  function NewLoop(keys: Keys): Loop {
    Loop(keys, Connecting, Auth(keys.primary, false), 0, true, [])
  }

  /** The one-shot signal to the caller of `Connect`. */
  function Announce(l: Loop, ok: bool): Loop {
    if l.isInitial then l.(isInitial := false, signals := l.signals + [ok]) else l
  }

  function Welcome(l: Loop): Loop {
    Announce(l, true).(state := Active, attempts := 0)
  }

  /** The key was refused, and there is another one to try. */
  predicate Switches(l: Loop, r: Report) {
    && r.reconnect && r.err.Some? && Is(r.err.value, UnauthenticatedKind)
    && !(l.isInitial && Is(r.err.value, TooManyKind))
    && !l.auth.fallback && l.keys.fallback != ""
  }

  /** The reports that end the loop. */
  predicate Fatal(l: Loop, r: Report) {
    || !r.reconnect
    || (r.err.Some? && l.isInitial && Is(r.err.value, TooManyKind))
    || (r.err.Some? && Is(r.err.value, UnauthenticatedKind) && (l.auth.fallback || l.keys.fallback == ""))
    || (r.err.Some? && Find(r.err.value, CloseKind).Some?
        && Find(r.err.value, CloseKind).value.reason !in RETRIED_REASONS)
  }

  function Judge(l: Loop, r: Report): Loop {
    var judged := l.(
      state := if r.reconnect then Reconnecting else Closed,
      auth := if Switches(l, r) then Auth(l.keys.fallback, true) else l.auth);
    if Fatal(l, r) then Announce(judged, !r.reconnect) else judged
  }

  /** The end of the loop body: launch another connection, or give up. */
  function Attempt(l: Loop): Loop {
    if l.attempts == MAX_ATTEMPTS then Announce(l, false) else l.(attempts := l.attempts + 1)
  }

  /** The loop goroutine's variables, updated as it runs. */
  class Runner {
    const keys: Keys
    var state: ConnectionState
    var auth: Auth
    var attempts: nat
    var isInitialConnection: bool
    var initialConnectionDone: seq<bool>

    ghost function Now(): Loop
      reads this
    {
      Loop(keys, state, auth, attempts, isInitialConnection, initialConnectionDone)
    }

    constructor (keys: Keys)
      ensures Now() == NewLoop(keys)
    {
      this.keys := keys;
      state, auth, attempts := Connecting, Auth(keys.primary, false), 0;
      isInitialConnection, initialConnectionDone := true, [];
    }

    method Signal(ok: bool)
      modifies this
      ensures Now() == Announce(old(Now()), ok)
    {
      if isInitialConnection {
        isInitialConnection := false;
        initialConnectionDone := initialConnectionDone + [ok];
      }
    }

    method OnConnected()
      modifies this
      ensures Now() == Welcome(old(Now()))
    {
      Signal(true);
      state := Active;
      attempts := 0;
    }

    /** A connection is done. No delay means the loop returns. */
    method OnDone(msg: Report) returns (delay: Option<nat>)
      modifies this
      ensures Now() == Judge(old(Now()), msg)
      ensures delay == if Fatal(old(Now()), msg) then None else Some(ExpBackoff(old(attempts)))
    {
      if !msg.reconnect {
        state := Closed;
        Signal(true);
        return None;
      }
      state := Reconnecting;
      if msg.err.Some? {
        var err := msg.err.value;
        if Is(err, TooManyKind) {
          if isInitialConnection {
            Signal(false);
            return None;
          }
        }
        if Is(err, UnauthenticatedKind) {
          if auth.fallback {
            Signal(false);
            return None;
          }
          if |keys.fallback| == 0 {
            Signal(false);
            return None;
          }
          auth := Auth(keys.fallback, true);
        }
        var closeErr := Find(err, CloseKind);
        if closeErr.Some? {
          if closeErr.value.reason !in RETRIED_REASONS {
            Signal(false);
            return None;
          }
        }
      }
      delay := Some(ExpBackoff(attempts));
    }

    method OnCancelledWhileWaiting()
      modifies this
      ensures Now() == Announce(old(Now()), true)
    {
      Signal(true);
    }

    /** No key means the loop returns. */
    method Proceed() returns (key: Option<string>)
      modifies this
      ensures Now() == Attempt(old(Now()))
      ensures key == if old(attempts) == 5 then None else Some(old(auth).key)
      ensures attempts == old(attempts) + (if key == None then 0 else 1)
      ensures (key == None && old(isInitialConnection) ==>
          initialConnectionDone == old(initialConnectionDone) + [false])
    {
      if attempts == MAX_ATTEMPTS {
        Signal(false);
        return None;
      }
      attempts := attempts + 1;
      return Some(auth.key);
    }
  }

  /** Exactly which lost connections are replaced: those that ended with a close reason the loop retries, and
      those that ended without a close error other than by EOF or a closed socket. */
  lemma LossRetriedIff(l: Loop, e: GoErr, missedHeartbeat: bool)
    ensures !Fatal(l, HandleReport(LossError(e, missedHeartbeat)))
      <==> (if Is(e, CloseKind)
            then Find(e, CloseKind).value.reason in {
              "connect_authentication_failed", "connect_gateway_closing", "connect_internal_error",
              "connect_worker_hello_timeout"}
            else !Is(e, NetClosedKind) && !Is(e, EndOfFileKind))
  {
    LossReportsExactly(e, missedHeartbeat);
  }

  /** So a connection that ends by plain EOF is reported for reconnection and yet ends the loop. */
  lemma EofEndsTheLoop(l: Loop)
    ensures HandleReport(LossError(EndOfFile, false)).reconnect
    ensures Fatal(l, HandleReport(LossError(EndOfFile, false)))
  {
    LossRetriedIff(l, EndOfFile, false);
    LossReportsExactly(EndOfFile, false);
  }

  /** Exactly which failures before the hand-over end the loop, when nothing from outside is taken for one of the
      errors it looks for: a refused key with no other to try, and a worker too many at the very start. */
  lemma FailedStartEndsLoopIff(l: Loop, p: Preparation)
    requires PrepareError(p).Some?
    requires Foreign(p, UnauthenticatedKind) && Foreign(p, TooManyKind) && Foreign(p, CloseKind)
    ensures Fatal(l, PrepareReport(PrepareError(p).value))
      <==> (Answered(p, 401) && (l.auth.fallback || l.keys.fallback == "")) || (Answered(p, 429) && l.isInitial)
  {
    PrepareReportsExactly(p);
  }

  /** The delay in seconds after so many attempts. */
  lemma DelaysAre(attempts: nat)
    ensures ExpBackoff(attempts) == if attempts < 9 then [1, 2, 5, 10, 20, 30, 60, 120, 300][attempts] else 300
  {
  }

  /** A refused start request ends the loop unless there is a fallback key not yet in use, which is then used. */
  lemma RefusedStart(l: Loop, body: Option<GoErr>)
    ensures var r := PrepareReport(PrepareError(Starts(Status(401, body))).value);
      var spare := !l.auth.fallback && l.keys.fallback != "";
      (Fatal(l, r) <==> !spare) && Judge(l, r).auth == (if spare then Auth(l.keys.fallback, true) else l.auth)
  {
    var p := Starts(Status(401, body));
    var e := PrepareError(p).value;
    assert e == Reconnect(Wrapf("could not start connection", Reconnect(Unauthenticated)));
    Unwrapped("could not establish connection", e, UnauthenticatedKind);
    Unwrapped("could not establish connection", e, TooManyKind);
    Unwrapped("could not establish connection", e, CloseKind);
  }
}
