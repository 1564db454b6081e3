/** The invocation manager and the step tools: what one call of a tool does to the manager's state,
    as functions, and the class whose methods do it in place. */
module Engine {
  import opened Json
  import opened Errors
  import opened StepKeys
  import opened Memo

  datatype OpKind = StepRun | StepPlanned | StepFailed | SleepUntil | WaitFor | InvokeFunction

  /** A failed step as its op reports it. */
  datatype UserError = UserError(name: string, message: string, data: Option<Json>)

  datatype Opcode = Opcode(id: string, kind: OpKind, name: string, opts: Json, data: Option<Json>,
      error: Option<UserError>)

  /** What one execution of a step body does. `Returned(None)` is a value JSON cannot represent. */
  datatype BodyResult =
    | Returned(data: Option<Json>)
    | Failed(err: GoErr, data: Option<Json>)
    | Panicked(msg: string)

  type Bodies = CallId -> BodyResult

  /** How a stretch of workflow code ends: with a value, by the control hijack, or by another panic. */
  datatype Ctl<T> = Value(value: T) | Hijack | Panic(msg: string)

  datatype Request = Request(steps: map<string, Json>, target: Option<string>, planFirst: bool)

  /** The manager's fields, and the histories of calls numbered, of calls behind the ops, and of bodies run. */
  datatype State = State(
    indexes: map<string, nat>,
    ops: seq<Opcode>,
    err: Option<GoErr>,
    cancelled: bool,
    calls: seq<CallId>,
    opCalls: seq<CallId>,
    ran: seq<CallId>)

  const FRESH := State(map[], [], None, false, [], [], [])

  /** The position the next call with this id gets. */
  function Next(indexes: map<string, nat>, id: string): nat {
    if id in indexes then indexes[id] + 1 else 0
  }

  function NewOp(s: State, id: string): (State, CallId) {
    var c := CallId(id, Next(s.indexes, id));
    (s.(indexes := s.indexes[id := c.pos], calls := s.calls + [c]), c)
  }

  function AppendOp(s: State, op: Opcode, c: CallId): State {
    s.(ops := s.ops + [op], opCalls := s.opCalls + [c])
  }

  function SetErr(s: State, e: GoErr): State {
    s.(err := Some(e))
  }

  /** A tool whose memo is present. */
  function FromMemo(s: State, decoded: Decoded): (State, Ctl<StepResult>) {
    match decoded
    case Good(r) => (s, Value(r))
    case Bad(e) => (SetErr(s, e), Hijack)
  }

  function RunOp(c: CallId, data: Option<Json>): Opcode {
    Opcode(Key(c), StepRun, c.id, Null, data, None)
  }

  function PlanOp(c: CallId): Opcode {
    Opcode(Key(c), StepPlanned, c.id, Null, None, None)
  }

  function FailOp(c: CallId, e: GoErr, data: Option<Json>): Opcode {
    Opcode(Key(c), StepFailed, c.id, Null, None, Some(UserError("Step failed", Message(e), data)))
  }

  /** The op of a tool the executor carries out. */
  function ToolOp(tool: Tool, c: CallId): Opcode
    requires !tool.Run?
  {
    match tool
    case Sleep(duration) =>
      Opcode(Key(c), SleepUntil, c.id, Object([("duration", Str(duration))]), None, None)
    case WaitForEvent(name, event, timeout, cond) =>
      var args := [("timeout", Str(timeout)), ("event", Str(event))];
      Opcode(Key(c), WaitFor, if name == "" then c.id else name,
             Object(if cond.Some? then args + [("if", Str(cond.value))] else args), None, None)
    case Invoke(functionId, data, user, deadline) =>
      var args := [("function_id", Str(functionId)), ("payload", Object([("data", data), ("user", user)]))];
      Opcode(Key(c), InvokeFunction, c.id,
             Object(if deadline.Some? then args + [("timeout", Str(deadline.value))] else args), None, None)
  }

  function UnhandledStepError(e: GoErr): GoErr {
    Text("Unhandled step error: " + Message(e))
  }

  const UNMARSHALABLE := Text("unable to marshal run response")

  /** Running the body of `c`: the context is cancelled however the body ends. */
  function RunBody(s: State, c: CallId, body: BodyResult): (State, Ctl<StepResult>) {
    var s := s.(ran := s.ran + [c], cancelled := true);
    match body
    case Panicked(msg) => (s, Panic(msg))
    case Failed(e, data) =>
      if IsStepError(Some(e)) then (SetErr(s, UnhandledStepError(e)), Hijack)
      else (SetErr(AppendOp(s, FailOp(c, e, data), c), e), Hijack)
    case Returned(None) => (AppendOp(SetErr(s, UNMARSHALABLE), RunOp(c, None), c), Hijack)
    case Returned(data) => (AppendOp(s, RunOp(c, data), c), Hijack)
  }

  /** `Run` with no memo: another target hijacks, planning reports the step, otherwise the body runs. */
  function RunFresh(s: State, req: Request, par: bool, c: CallId, bodies: Bodies): (State, Ctl<StepResult>) {
    if req.target.Some? && req.target.value != Key(c) then (s, Hijack)
    else if req.target.None? && (par || req.planFirst) then (AppendOp(s, PlanOp(c), c), Hijack)
    else RunBody(s, c, bodies(c))
  }

  /** One call of a step tool. */
  function CallTool(s: State, req: Request, par: bool, tool: Tool, id: string, ty: Ty, bodies: Bodies)
      : (State, Ctl<StepResult>)
  {
    if s.cancelled then (s, Hijack)
    else
      var (s1, c) := NewOp(s, id);
      if Key(c) in req.steps then FromMemo(s1, Decode(tool, req.steps[Key(c)], ty, id))
      else if tool.Run? then RunFresh(s1, req, par, c, bodies)
      else (AppendOp(s1, ToolOp(tool, c), c), Hijack)
  }

  /* ---------- what a body leaves behind ---------- */

  /** One more op, for this call, of this kind. */
  predicate Reports(s: State, t: State, c: CallId, kind: OpKind) {
    && |t.ops| == |s.ops| + 1 && t.ops[..|s.ops|] == s.ops
    && var op := t.ops[|s.ops|]; op.id == Key(c) && op.name == c.id && op.kind == kind
  }

  /** A body that is run stops all later tools. What it returns is in its op; what it fails with is in its op, with
      the fixed name, its message and its data, and is the pass's error; a step error that it lets through is told
      in the error alone; and a value JSON cannot hold is an error beside an op without data. */
  lemma BodyIsReported(s: State, req: Request, par: bool, c: CallId, bodies: Bodies)
    requires req.target == Some(Key(c)) || (req.target == None && !par && !req.planFirst)
    ensures var (t, out) := RunFresh(s, req, par, c, bodies);
      && t.cancelled
      && match bodies(c)
         case Returned(data) =>
           && out == Hijack && Reports(s, t, c, StepRun) && t.ops[|s.ops|].data == data && t.ops[|s.ops|].error == None
           && (if data.Some? then t.err == s.err else t.err.Some? && !IsStepError(t.err) && !IsNoRetryError(t.err))
         case Failed(e, data) =>
           && out == Hijack
           && if IsStepError(Some(e)) then t.ops == s.ops && t.err == Some(Text("Unhandled step error: " + Message(e)))
              else
                && t.err == Some(e) && Reports(s, t, c, StepFailed) && t.ops[|s.ops|].data == None
                && t.ops[|s.ops|].error == Some(UserError("Step failed", Message(e), data))
         case Panicked(msg) => t.ops == s.ops && t.err == s.err && out == Panic(msg)
  {
    assert !StepKind(UNMARSHALABLE) && !NoRetryKind(UNMARSHALABLE);
  }

  /* ---------- what the ops ask the executor for ---------- */

  /** The options are an object of this size. */
  predicate OfSize(opts: Json, n: nat) {
    opts.Object? && |opts.members| == n
  }

  /** The options give this value under this key. */
  ghost predicate Holds(opts: Json, key: string, value: Json) {
    opts.Object? && exists i: nat :: LastWithKey(opts.members, key, i) && opts.members[i].1 == value
  }

  lemma SleepAsks(tool: Tool, c: CallId)
    requires tool.Sleep?
    ensures var op := ToolOp(tool, c);
      && op.id == Key(c) && op.kind == SleepUntil && op.name == c.id && op.data == None && op.error == None
      && OfSize(op.opts, 1) && Holds(op.opts, "duration", Str(tool.duration))
  {
    assert LastWithKey(ToolOp(tool, c).opts.members, "duration", 0);
  }

  /** A wait names its event and its timeout, and its condition if it has one; its own name replaces the id. */
  lemma WaitAsks(tool: Tool, c: CallId)
    requires tool.WaitForEvent?
    ensures var op := ToolOp(tool, c);
      && op.id == Key(c) && op.kind == WaitFor && op.data == None && op.error == None
      && op.name == (if tool.name != "" then tool.name else c.id)
      && OfSize(op.opts, if tool.cond.Some? then 3 else 2)
      && Holds(op.opts, "event", Str(tool.event)) && Holds(op.opts, "timeout", Str(tool.timeout))
      && (tool.cond.Some? ==> Holds(op.opts, "if", Str(tool.cond.value)))
  {
    var opts := ToolOp(tool, c).opts.members;
    assert |"timeout"| == 7 && |"event"| == 5 && |"if"| == 2;
    assert LastWithKey(opts, "timeout", 0) && LastWithKey(opts, "event", 1);
    assert tool.cond.Some? ==> LastWithKey(opts, "if", 2);
  }

  /** An invocation names the function and carries data and user, and its timeout if it has one. */
  lemma InvokeAsks(tool: Tool, c: CallId)
    requires tool.Invoke?
    ensures var op := ToolOp(tool, c);
      && op.id == Key(c) && op.kind == InvokeFunction && op.name == c.id && op.data == None && op.error == None
      && OfSize(op.opts, if tool.deadline.Some? then 3 else 2)
      && Holds(op.opts, "function_id", Str(tool.functionId))
      && (tool.deadline.Some? ==> Holds(op.opts, "timeout", Str(tool.deadline.value)))
      && exists payload :: Holds(op.opts, "payload", payload) && OfSize(payload, 2)
           && Holds(payload, "data", tool.data) && Holds(payload, "user", tool.user)
  {
    var op := ToolOp(tool, c);
    var payload := Object([("data", tool.data), ("user", tool.user)]);
    assert |"function_id"| == 11 && |"payload"| == 7 && |"timeout"| == 7 && "payload"[0] != "timeout"[0];
    assert "data"[0] != "user"[0];
    assert LastWithKey(payload.members, "data", 0) && LastWithKey(payload.members, "user", 1);
    assert LastWithKey(op.opts.members, "function_id", 0) && LastWithKey(op.opts.members, "payload", 1);
    assert tool.deadline.Some? ==> LastWithKey(op.opts.members, "timeout", 2);
    assert Holds(op.opts, "payload", payload);
  }

  /** The request's invocation manager, shared by every tool called during one invocation. */
  class Manager {
    const request: Request
    var indexes: map<string, nat>
    var ops: seq<Opcode>
    var err: Option<GoErr>
    var cancelled: bool
    ghost var calls: seq<CallId>
    ghost var opCalls: seq<CallId>
    ghost var ran: seq<CallId>

    ghost function Now(): State
      reads this
    {
      State(indexes, ops, err, cancelled, calls, opCalls, ran)
    }

    constructor (request: Request)
      ensures this.request == request && Now() == FRESH
    {
      this.request := request;
      indexes, ops, err, cancelled := map[], [], None, false;
      calls, opCalls, ran := [], [], [];
    }

    /** Hands out the next position of `id`. */
    method NextOp(id: string) returns (c: CallId)
      modifies this
      ensures (Now(), c) == NewOp(old(Now()), id)
    {
      var n := 0;
      if id in indexes {
        n := indexes[id] + 1;
      }
      indexes := indexes[id := n];
      c := CallId(id, n);
      calls := calls + [c];
    }

    method Append(op: Opcode, ghost c: CallId)
      modifies this`ops, this`opCalls
      ensures Now() == AppendOp(old(Now()), op, c)
    {
      ops := ops + [op];
      opCalls := opCalls + [c];
    }

    method UseMemo(decoded: Decoded) returns (out: Ctl<StepResult>)
      modifies this`err
      ensures (Now(), out) == FromMemo(old(Now()), decoded)
      ensures decoded.Good? ==> out == Value(decoded.result) && err == old(err)
      ensures decoded.Bad? ==> out == Hijack && err == Some(decoded.err)
    {
      match decoded
      case Good(r) => out := Value(r);
      case Bad(e) =>
        err := Some(e);
        out := Hijack;
    }

    method RunStep(par: bool, id: string, ty: Ty, bodies: Bodies) returns (out: Ctl<StepResult>)
      modifies this
      ensures (Now(), out) == CallTool(old(Now()), request, par, Run, id, ty, bodies)
    {
      if cancelled { return Hijack; }
      var c := NextOp(id);
      if Key(c) in request.steps {
        out := UseMemo(DecodeRun(request.steps[Key(c)], ty, id));
        return;
      }
      if request.target.Some? && request.target.value != Key(c) { return Hijack; }
      if request.target.None? && (par || request.planFirst) {
        Append(PlanOp(c), c);
        return Hijack;
      }
      cancelled := true;
      ran := ran + [c];
      match bodies(c)
      case Panicked(msg) => out := Panic(msg);
      case Failed(e, data) =>
        if IsStepError(Some(e)) {
          err := Some(UnhandledStepError(e));
        } else {
          Append(FailOp(c, e, data), c);
          err := Some(e);
        }
        out := Hijack;
      case Returned(data) =>
        if data.None? {
          err := Some(UNMARSHALABLE);
        }
        Append(RunOp(c, data), c);
        out := Hijack;
    }

    /** Sleep, WaitForEvent and Invoke: the memo, or an op for the executor. */
    method Delegate(par: bool, tool: Tool, id: string, ty: Ty, ghost bodies: Bodies) returns (out: Ctl<StepResult>)
      requires !tool.Run?
      modifies this
      ensures (Now(), out) == CallTool(old(Now()), request, par, tool, id, ty, bodies)
      ensures var key := Key(CallId(id, Next(old(indexes), id)));
        && (!old(cancelled) && key in request.steps && tool.WaitForEvent? && request.steps[key] == Null ==>
              out == Value(StepResult(ty.zero, Some(Text("event not received")))) && err == old(err))
        && (!old(cancelled) && key in request.steps && tool.Sleep? ==> out.Value? && out.value.err == None)
        && (!old(cancelled) && key !in request.steps ==>
              out == Hijack && |ops| == |old(ops)| + 1 && ops[|old(ops)|].id == key && ops[|old(ops)|].data == None)
    {
      if cancelled { return Hijack; }
      var c := NextOp(id);
      if Key(c) in request.steps {
        out := UseMemo(Decode(tool, request.steps[Key(c)], ty, id));
        return;
      }
      Append(ToolOp(tool, c), c);
      out := Hijack;
    }
  }
}
