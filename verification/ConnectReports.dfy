/** connect/handshake.go, connect/workerapi.go and the error wrapping of connect/connection.go: how each
    way a connection can fail becomes the report the run loop receives. */
module ConnectReports {
  import opened Json
  import opened Errors

  datatype Report = Report(reconnect: bool, err: Option<GoErr>)

  /** What a connection reports after a graceful shutdown. */
  const SHUTDOWN := Report(false, None)

  predicate UnauthenticatedKind(e: GoErr) { e.Unauthenticated? }
  predicate TooManyKind(e: GoErr) { e.TooManyConnections? }
  predicate CloseKind(e: GoErr) { e.CloseError? }
  predicate ReconnectKind(e: GoErr) { e.Reconnect? }
  predicate DrainingKind(e: GoErr) { e.GatewayDraining? }
  predicate EndOfFileKind(e: GoErr) { e.EndOfFile? }
  predicate NetClosedKind(e: GoErr) { e.NetClosed? }

  predicate Is(e: GoErr, kind: GoErr -> bool) { Find(e, kind).Some? }

  predicate ShouldReconnect(e: GoErr) { Is(e, ReconnectKind) }

  /** The start request: the transport fails, or a status arrives with a body that may not be readable. */
  datatype Start = SendFails(e: GoErr) | Status(code: int, body: Option<GoErr>)

  function StartError(s: Start): Option<GoErr> {
    match s
    case SendFails(e) => Some(Wrapf("could not send start request", e))
    case Status(code, body) =>
      if code == 401 then Some(Reconnect(Unauthenticated))
      else if code == 429 then Some(Reconnect(TooManyConnections))
      else if body.Some? then Some(Wrapf("could not read start response", body.value))
      else if code != 200 then Some(Text("unexpected status code"))
      else None
  }

  /** One message read during the handshake. */
  datatype Read = ReadFails(e: GoErr) | Expected | Unexpected

  datatype Handshake = Handshake(hello: Read, serialize: Option<GoErr>, write: Option<GoErr>, ready: Read)

  function HandshakeError(h: Handshake): Option<GoErr> {
    match h.hello
    case ReadFails(e) => Some(Reconnect(Wrapf("did not receive gateway hello message", e)))
    case Unexpected => Some(Reconnect(Text("expected gateway hello message")))
    case Expected =>
      if h.serialize.Some? then Some(Wrapf("could not serialize sdk connect message", h.serialize.value))
      else if h.write.Some? then Some(Reconnect(Text("could not send initial message")))
      else
        match h.ready
        case ReadFails(e) => Some(Reconnect(Wrapf("did not receive gateway connection ready message", e)))
        case Unexpected => Some(Reconnect(Text("expected gateway connection ready message")))
        case Expected => None
  }

  /** How far setting up a connection gets. */
  datatype Preparation =
    | Starts(start: Start)
    | HostInvalid(e: GoErr)
    | RewriteFails(e: GoErr)
    | DialFails(e: GoErr)
    | Shakes(handshake: Handshake)

  function PrepareError(p: Preparation): Option<GoErr> {
    match p
    case Starts(start) =>
      (match StartError(start)
       case Some(e) => Some(Reconnect(Wrapf("could not start connection", e)))
       case None => None)
    case HostInvalid(e) => Some(Reconnect(Wrapf("received invalid start gateway host", e)))
    case RewriteFails(e) => Some(Reconnect(Wrapf("rewriting gateway host failed", e)))
    case DialFails(e) => Some(Reconnect(Wrapf("could not connect to gateway", e)))
    case Shakes(h) =>
      (match HandshakeError(h)
       case Some(e) => Some(Reconnect(Wrapf("could not perform connect handshake", e)))
       case None => None)
  }

  function PrepareReport(err: GoErr): Report {
    Report(ShouldReconnect(err), Some(Wrapf("could not establish connection", err)))
  }

  /** The error `handleConnection` returns when reading ends with `e` while the worker is running and the
      gateway is not draining. An unexpected end is wrapped around the zero close error of line 302. */
  function LossError(e: GoErr, missedHeartbeat: bool): GoErr {
    match Find(e, CloseKind)
    case Some(close) => Reconnect(Wrapf("connection closed with reason", close))
    case None =>
      if Is(e, NetClosedKind) || Is(e, EndOfFileKind)
      then Reconnect(Wrapf("connection closed unexpectedly", CloseError("")))
      else if missedHeartbeat then Reconnect(Text("connection closed unexpectedly due to missed heartbeat"))
      else Reconnect(Text("connection closed unexpectedly"))
  }

  function HandleReport(err: GoErr): Report {
    Report(ShouldReconnect(err), Some(Wrapf("could not handle connection", err)))
  }

  /** A stack of `%w` and reconnect wrappers, outermost first. */
  datatype Layer = Context(text: string) | Reconnectable

  function Wrapped(layers: seq<Layer>, e: GoErr): GoErr {
    if layers == [] then e
    else if layers[0].Context? then Wrapf(layers[0].text, Wrapped(layers[1..], e))
    else Reconnect(Wrapped(layers[1..], e))
  }

  /** Wrapping, however deep, never hides or reorders a cause. */
  lemma {:induction false} WrappingKeepsCauses(layers: seq<Layer>, e: GoErr, kind: GoErr -> bool)
    requires forall x: GoErr :: kind(x) ==> !x.Wrapf? && !x.Reconnect?
    ensures Find(Wrapped(layers, e), kind) == Find(e, kind)
  {
    if layers != [] {
      WrappingKeepsCauses(layers[1..], e, kind);
    }
  }

  /** The wrappers a preparation error travels in. */
  lemma Unwrapped(text: string, e: GoErr, kind: GoErr -> bool)
    requires forall x: GoErr :: kind(x) ==> !x.Wrapf? && !x.Reconnect?
    ensures Find(Wrapf(text, e), kind) == Find(e, kind)
    ensures e.Reconnect? ==> Find(e, kind) == Find(e.inner, kind)
    ensures e.Reconnect? && e.inner.Wrapf? ==> Find(e, kind) == Find(e.inner.inner, kind)
  {
  }

  /** What a preparation error contains of a kind that only this package's sentinels are of. */
  lemma PrepareErrorContains(p: Preparation, kind: GoErr -> bool)
    requires PrepareError(p).Some? && Foreign(p, kind)
    requires forall x: GoErr :: kind(x) ==> x.Unauthenticated? || x.TooManyConnections? || x.CloseError?
    ensures (Is(PrepareError(p).value, kind)
      <==> (Answered(p, 401) && kind(Unauthenticated)) || (Answered(p, 429) && kind(TooManyConnections)))
  {
    var err := PrepareError(p).value;
    Unwrapped("", err, kind);
    match p
    case Starts(SendFails(e)) => Unwrapped("could not send start request", e, kind);
    case Shakes(h) => Unwrapped("", HandshakeError(h).value, kind);
    case _ =>
  }

  /** A step of the preparation is taken as done exactly when the start request is answered with 200 and a body
      that can be read, or every message of the handshake is written and is the one expected. */
  lemma PrepareSucceedsIff(p: Preparation)
    ensures PrepareError(p) == None
      <==> p == Starts(Status(200, None)) || p == Shakes(Handshake(Expected, None, None, Expected))
  {
  }

  /** Every failure before a connection is handed over is reported as reconnectable; it says the key was
      refused exactly when the start request got a 401, and that there are too many connections exactly
      when it got a 429, given that no error from outside says so. */
  lemma PrepareReportsExactly(p: Preparation)
    requires PrepareError(p).Some?
    ensures PrepareReport(PrepareError(p).value).reconnect && PrepareReport(PrepareError(p).value).err.Some?
    ensures (Foreign(p, UnauthenticatedKind) ==>
        (Is(PrepareReport(PrepareError(p).value).err.value, UnauthenticatedKind) <==> Answered(p, 401)))
    ensures (Foreign(p, TooManyKind) ==>
        (Is(PrepareReport(PrepareError(p).value).err.value, TooManyKind) <==> Answered(p, 429)))
    ensures (Foreign(p, CloseKind) ==> !Is(PrepareReport(PrepareError(p).value).err.value, CloseKind))
  {
    if Foreign(p, CloseKind) { PrepareErrorContains(p, CloseKind); }
    PreparationRetries(p);
    if Foreign(p, UnauthenticatedKind) { PrepareErrorContains(p, UnauthenticatedKind); }
    if Foreign(p, TooManyKind) { PrepareErrorContains(p, TooManyKind); }
  }

  lemma PreparationRetries(p: Preparation)
    requires PrepareError(p).Some?
    ensures PrepareError(p).value.Reconnect? && ShouldReconnect(PrepareError(p).value)
  {
  }

  predicate Answered(p: Preparation, code: int) {
    p.Starts? && p.start.Status? && p.start.code == code
  }

  /** No error that comes from outside this package is of this kind. */
  predicate Foreign(p: Preparation, kind: GoErr -> bool) {
    match p
    case Starts(SendFails(e)) => !Is(e, kind)
    case Starts(Status(_, body)) => body.Some? ==> !Is(body.value, kind)
    case HostInvalid(e) => !Is(e, kind)
    case RewriteFails(e) => !Is(e, kind)
    case DialFails(e) => !Is(e, kind)
    case Shakes(h) =>
      (h.hello.ReadFails? ==> !Is(h.hello.e, kind))
      && (h.serialize.Some? ==> !Is(h.serialize.value, kind))
      && (h.ready.ReadFails? ==> !Is(h.ready.e, kind))
  }

  /** The close error by which the end of reading `e` is judged. */
  function EndReason(e: GoErr): Option<GoErr> {
    if Is(e, CloseKind) then Find(e, CloseKind)
    else if Is(e, NetClosedKind) || Is(e, EndOfFileKind) then Some(CloseError(""))
    else None
  }

  /** A lost connection is always reported as reconnectable; its report carries the reason of the close
      error that ended the reading, the empty reason after an unexpected end, and no reason otherwise. */
  lemma LossReportsExactly(e: GoErr, missedHeartbeat: bool)
    ensures HandleReport(LossError(e, missedHeartbeat)).reconnect
    ensures HandleReport(LossError(e, missedHeartbeat)).err.Some?
    ensures !Is(HandleReport(LossError(e, missedHeartbeat)).err.value, UnauthenticatedKind)
    ensures !Is(HandleReport(LossError(e, missedHeartbeat)).err.value, TooManyKind)
    ensures Find(HandleReport(LossError(e, missedHeartbeat)).err.value, CloseKind) == EndReason(e)
  {
    var err := LossError(e, missedHeartbeat);
    Unwrapped("could not handle connection", err, UnauthenticatedKind);
    Unwrapped("could not handle connection", err, TooManyKind);
    Unwrapped("could not handle connection", err, CloseKind);
  }
}
