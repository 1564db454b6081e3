/** Workflow functions as programs over the step tools, one pass of such a program, and the invocation
    around it. */
module Workflow {
  import opened Json
  import opened Errors
  import opened Memo
  import opened Engine

  /** Workflow code between its calls: it returns, panics, calls a tool, or runs branches through
      `group.Parallel`. Continuations are keyed by the result; a result without one makes the code panic. */
  datatype Prog =
    | Return(value: Json, err: Option<GoErr>)
    | Crash(msg: string)
    | Call(tool: Tool, id: string, ty: Ty, next: imap<StepResult, Prog>)
    | Parallel(branches: seq<Prog>, join: imap<seq<StepResult>, Prog>)

  const NO_CASE := "unhandled result"

  function Finish(r: StepResult): Prog { Return(r.value, r.err) }

  /** The branch that makes one call and returns its result. */
  ghost function Once(tool: Tool, id: string, ty: Ty): Prog {
    Call(tool, id, ty, imap r: StepResult | true :: Finish(r))
  }

  /** A program that calls no `Parallel`. */
  ghost predicate Sequential(p: Prog)
    decreases p
  {
    match p
    case Return(_, _) => true
    case Crash(_) => true
    case Call(_, _, _, next) => forall r :: r in next ==> Sequential(next[r])
    case Parallel(_, _) => false
  }

  /** What `Parallel` has gathered so far: `results`, `isPlanned` and `unexpectedPanic`. */
  datatype Gathered = Gathered(results: seq<StepResult>, planned: bool, panic: Option<string>)

  function Gather(g: Gathered, out: Ctl<StepResult>): Gathered {
    match out
    case Value(r) => g.(results := g.results + [r])
    case Hijack => g.(planned := true)
    case Panic(msg) => g.(panic := Some(msg))
  }

  const NOTHING := Gathered([], false, None)

  /** How `Parallel` itself ends: a panic beats a hijack, a hijack beats the results. */
  function JoinUp(g: Gathered): Ctl<seq<StepResult>> {
    if g.panic.Some? then Panic(g.panic.value)
    else if g.planned then Hijack
    else Value(g.results)
  }

  /** One pass over a program. */
  function Exec(p: Prog, s: State, req: Request, par: bool, bodies: Bodies): (State, Ctl<StepResult>)
    decreases p, 0
  {
    match p
    case Return(value, err) => (s, Value(StepResult(value, err)))
    case Crash(msg) => (s, Panic(msg))
    case Call(tool, id, ty, next) =>
      var (s1, out) := CallTool(s, req, par, tool, id, ty, bodies);
      if !out.Value? then (s1, out)
      else if out.value in next then Exec(next[out.value], s1, req, par, bodies)
      else (s1, Panic(NO_CASE))
    case Parallel(branches, join) =>
      var (s1, g) := ExecAll(branches, s, req, bodies, NOTHING);
      match JoinUp(g)
      case Hijack => (s1, Hijack)
      case Panic(msg) => (s1, Panic(msg))
      case Value(rs) => if rs in join then Exec(join[rs], s1, req, par, bodies) else (s1, Panic(NO_CASE))
  }

  function ExecAll(bs: seq<Prog>, s: State, req: Request, bodies: Bodies, g: Gathered): (State, Gathered)
    decreases bs, 0
  {
    if bs == [] then (s, g)
    else
      var (s1, out) := Exec(bs[0], s, req, true, bodies);
      ExecAll(bs[1..], s1, req, bodies, Gather(g, out))
  }

  /** What `invoke` hands to the transport. */
  datatype Invocation = Invocation(resp: Option<Json>, ops: seq<Opcode>, err: Option<GoErr>)

  function Settle(s: State, out: Ctl<StepResult>): Invocation {
    Invocation(
      if out.Value? then Some(out.value.value) else None,
      s.ops,
      if out.Panic? then Some(Text("function panicked: " + out.msg))
      else if s.err.Some? then s.err
      else if out.Value? then out.value.err
      else None)
  }

  /** One invocation: a fresh manager, one pass, and the error precedence panic, step error, returned error. */
  function Pass(p: Prog, req: Request, bodies: Bodies): Invocation {
    var (s, out) := Exec(p, FRESH, req, false, bodies);
    Settle(s, out)
  }

  /** The program run for real against the manager. */
  method Perform(p: Prog, m: Manager, par: bool, bodies: Bodies) returns (out: Ctl<StepResult>)
    modifies m
    ensures (m.Now(), out) == Exec(p, old(m.Now()), m.request, par, bodies)
    decreases p, 0
  {
    match p
    case Return(value, err) => out := Value(StepResult(value, err));
    case Crash(msg) => out := Panic(msg);
    case Call(tool, id, ty, next) =>
      if tool.Run? {
        out := m.RunStep(par, id, ty, bodies);
      } else {
        out := m.Delegate(par, tool, id, ty, bodies);
      }
      if out.Value? {
        if out.value in next {
          out := Perform(next[out.value], m, par, bodies);
        } else {
          out := Panic(NO_CASE);
        }
      }
    case Parallel(branches, join) =>
      var joined := RunParallel(branches, m, bodies);
      match joined
      case Hijack => out := Hijack;
      case Panic(msg) => out := Panic(msg);
      case Value(rs) =>
        if rs in join {
          out := Perform(join[rs], m, par, bodies);
        } else {
          out := Panic(NO_CASE);
        }
  }

  /** `group.Parallel`: the branches run one after the other, each under its own recover. */
  method RunParallel(branches: seq<Prog>, m: Manager, bodies: Bodies) returns (out: Ctl<seq<StepResult>>)
    modifies m
    ensures var (s, g) := ExecAll(branches, old(m.Now()), m.request, bodies, NOTHING);
      m.Now() == s && out == JoinUp(g)
    decreases branches, 0
  {
    var results: seq<StepResult> := [];
    var isPlanned := false;
    var unexpectedPanic: Option<string> := None;
    assert branches[0..] == branches;
    for i := 0 to |branches|
      invariant ExecAll(branches[i..], m.Now(), m.request, bodies, Gathered(results, isPlanned, unexpectedPanic))
             == ExecAll(branches, old(m.Now()), m.request, bodies, NOTHING)
    {
      assert branches[i..][1..] == branches[i + 1..];
      var r := Perform(branches[i], m, true, bodies);
      match r
      case Value(v) => results := results + [v];
      case Hijack => isPlanned := true;
      case Panic(msg) => unexpectedPanic := Some(msg);
    }
    if unexpectedPanic.Some? { return Panic(unexpectedPanic.value); }
    if isPlanned { return Hijack; }
    out := Value(results);
  }

  method InvokeOnce(p: Prog, req: Request, bodies: Bodies) returns (r: Invocation)
    ensures r == Pass(p, req, bodies)
    ensures var (s, out) := Exec(p, FRESH, req, false, bodies);
      && r.ops == s.ops && r.resp == (if out.Value? then Some(out.value.value) else None)
      && (out.Panic? ==> r.err == Some(Text("function panicked: " + out.msg)))
      && (!out.Panic? && s.err.Some? ==> r.err == s.err)
      && (!out.Panic? && s.err.None? ==> r.err == if out.Value? then out.value.err else None)
  {
    var m := new Manager(req);
    var out := Perform(p, m, false, bodies);
    var err: Option<GoErr> := None;
    if out.Panic? {
      err := Some(Text("function panicked: " + out.msg));
    } else if m.err.Some? {
      err := m.err;
    } else if out.Value? && out.value.err.Some? {
      err := out.value.err;
    }
    var response: Option<Json> := None;
    if out.Value? {
      response := Some(out.value.value);
    }
    r := Invocation(response, m.ops, err);
  }
}
