/** Replaying a sequential workflow in rounds is the same as running it once. */
module SequentialReplay {
  import opened Json
  import opened Errors
  import opened StepKeys
  import opened Memo
  import opened Engine
  import opened Workflow
  import opened PassShape
  import opened Direct
  import opened Response
  import opened BodyOutcomes
  import opened Executor

  /** What happens outside the SDK: what each attempt of a step body does, what other steps settle to
      (by op ID), how often the executor retries a failing step, and whether it stores results raw. */
  datatype Env = Env(bodies: (CallId, nat) -> BodyResult, external: string -> Json, retries: nat, raw: bool)

  function Attempt(env: Env, a: nat): Bodies {
    c => env.bodies(c, a)
  }

  predicate Retryable(b: BodyResult) {
    b.Failed? && !IsStepError(Some(b.err)) && !IsNoRetryError(Some(b.err))
  }

  /** The last attempt of a body the executor makes, counting from attempt `a`. */
  function LastAttempt(env: Env, c: CallId, a: nat): (last: nat)
    ensures a <= last && !(Retryable(env.bodies(c, last)) && last < env.retries)
    ensures forall n :: a <= n < last ==> Retryable(env.bodies(c, n)) && n < env.retries
    decreases env.retries - a
  {
    if Retryable(env.bodies(c, a)) && a < env.retries then LastAttempt(env, c, a + 1) else a
  }

  function Final(env: Env, c: CallId): BodyResult {
    env.bodies(c, LastAttempt(env, c, 0))
  }

  function Live(env: Env): World {
    (tool: Tool, c: CallId, ty: Ty) =>
      if tool.Run? then FromBody(Final(env, c), ty, c.id)
      else Decode(tool, env.external(Key(c)), ty, c.id)
  }

  /** The memo a call ends up with, unless it ends the run. */
  function SettledMemo(env: Env, tool: Tool, c: CallId): Json {
    if tool.Run? then Stored(Final(env, c), env.raw) else env.external(Key(c))
  }

  /** What the executor does with one invocation's result. */
  datatype Verdict = Over(reply: Reply) | Again(steps: map<string, Json>, target: Option<string>, a: nat) | Stuck

  /** Store the op's outcome, retry its body, or target it. A sequential run has one op at a time. */
  function Decide(inv: Invocation, env: Env, steps: map<string, Json>, target: Option<string>, a: nat): Verdict {
    var reply := Classify(inv);
    if !reply.status.NotCompleted? then Over(reply)
    else if |inv.ops| != 1 then Stuck
    else
      var op := inv.ops[0];
      match op.kind
      case StepPlanned => Again(steps, Some(op.id), a)
      case StepFailed =>
        if !reply.noRetry && a < env.retries then Again(steps, target, a + 1)
        else if op.error.None? then Stuck
        else Again(steps[op.id := WrapError(op.error.value.name, op.error.value.message, op.error.value.data)], None, 0)
      case StepRun => if op.data.None? then Stuck else Again(steps[op.id := StoreAs(env.raw, op.data.value)], None, 0)
      case _ => Again(steps[op.id := env.external(op.id)], None, 0)
  }

  /** A verdict for every request: memo, target and attempt number. */
  type Server = (map<string, Json>, Option<string>, nat) -> Verdict

  function Serving(p: Prog, env: Env, planFirst: bool): Server {
    (steps: map<string, Json>, target: Option<string>, a: nat) =>
      Decide(Pass(p, Request(steps, target, planFirst), Attempt(env, a)), env, steps, target, a)
  }

  /** Names a request; the quantifiers below are used for the requests named, and for no others. */
  ghost predicate Asked(steps: map<string, Json>, target: Option<string>, bodies: Bodies) { true }

  ghost predicate Serves(serve: Server, p: Prog, env: Env, planFirst: bool) {
    forall steps, target, a {:trigger Asked(steps, target, Attempt(env, a))} ::
      Asked(steps, target, Attempt(env, a)) ==>
        serve(steps, target, a)
          == Decide(Pass(p, Request(steps, target, planFirst), Attempt(env, a)), env, steps, target, a)
  }

  /** The executor: invoke, act on the result, invoke again. Gives the first reply that is not an op and
      the number of invocations it took. */
  function Drive(serve: Server, steps: map<string, Json>, target: Option<string>, a: nat,
      fuel: nat): Option<(Reply, nat)>
    decreases fuel
  {
    if fuel == 0 then None
    else
      match serve(steps, target, a)
      case Over(reply) => Some((reply, 1))
      case Stuck => None
      case Again(steps', target', a') => Plus(1, Drive(serve, steps', target', a', fuel - 1))
  }

  function Plus(n: nat, r: Option<(Reply, nat)>): Option<(Reply, nat)> {
    if r.None? then None else Some((r.value.0, n + r.value.1))
  }

  /** Invocations a step takes before its memo is stored (or the run ends inside it). */
  function StepRounds(env: Env, planFirst: bool, tool: Tool, c: CallId): nat {
    if tool.Run? then (if planFirst then 1 else 0) + LastAttempt(env, c, 0) + 1 else 1
  }

  /** Invocations the whole run takes: the rounds of every step it makes, and one that finishes it. */
  function Rounds(p: Prog, idx: map<string, nat>, env: Env, planFirst: bool): (n: nat)
    ensures n > 0
    decreases p
  {
    match p
    case Call(tool, id, ty, next) =>
      var c := CallId(id, Next(idx, id));
      var here := StepRounds(env, planFirst, tool, c);
      if tool.Run? && Breaks(Final(env, c)) then here
      else
        (match Live(env)(tool, c, ty)
         case Good(r) => if r in next then here + Rounds(next[r], idx[id := c.pos], env, planFirst) else here + 1
         case Bad(_) => here + 1)
    case _ => 1
  }

  /** The memo carries every pass over `p` to `q` in state `s`. */
  ghost predicate Resumes(p: Prog, steps: map<string, Json>, q: Prog, s: State) {
    && Quiet(FRESH, s)
    && forall steps', target, planFirst, bodies
         {:trigger Asked(steps', target, bodies), Request(steps', target, planFirst)} ::
         Asked(steps', target, bodies) && Within(steps, steps') ==>
         Exec(p, FRESH, Request(steps', target, planFirst), false, bodies)
             == Exec(q, s, Request(steps', target, planFirst), false, bodies)
  }

  /** `q` is what is left of `p`, and exactly the calls made so far are memoized. */
  ghost predicate MidRun(p: Prog, steps: map<string, Json>, q: Prog, s: State) {
    && Resumes(p, steps, q, s) && Sequential(q) && Ids(q) <= Ids(p) && CollisionFree(Ids(p))
    && (forall k :: k in steps ==> exists c :: c in s.calls && k == Key(c))
    && (forall c :: c in s.calls ==> c.id in Ids(p) && c.pos < Next(s.indexes, c.id))
  }

  /** The next call of a run has no memo yet. */
  lemma NextIsOpen(p: Prog, steps: map<string, Json>, q: Prog, s: State)
    requires MidRun(p, steps, q, s) && q.Call?
    ensures Key(CallId(q.id, Next(s.indexes, q.id))) !in steps
  {
    var c := CallId(q.id, Next(s.indexes, q.id));
    assert Uses(q, q.id) && q.id in Ids(p);
    forall x | x in s.calls
      ensures Key(x) != Key(c)
    {
      assert x != c && x.id in Ids(p);
    }
  }

  /** A pass that finds the next call's memo gets beyond it. */
  lemma ResumesBeyond(p: Prog, steps: map<string, Json>, q: Prog, s: State, memo: Json, r: StepResult)
    requires Resumes(p, steps, q, s) && q.Call?
    requires Decode(q.tool, memo, q.ty, q.id) == Good(r) && r in q.next
    requires Key(CallId(q.id, Next(s.indexes, q.id))) !in steps
    ensures var (s1, c) := NewOp(s, q.id);
      Resumes(p, steps[Key(c) := memo], q.next[r], s1)
  {
    var (s1, c) := NewOp(s, q.id);
    var steps1 := steps[Key(c) := memo];
    forall steps', target, planFirst, bodies | Within(steps1, steps')
      ensures Exec(p, FRESH, Request(steps', target, planFirst), false, bodies)
           == Exec(q.next[r], s1, Request(steps', target, planFirst), false, bodies)
    {
      assert Within(steps, steps');
      assert Asked(steps', target, bodies);
      assert Key(c) in steps1;
    }
  }

  /** Once the next call is memoized, every pass gets beyond it. */
  lemma StepStored(p: Prog, steps: map<string, Json>, q: Prog, s: State, memo: Json, r: StepResult)
    requires MidRun(p, steps, q, s) && q.Call?
    requires Decode(q.tool, memo, q.ty, q.id) == Good(r) && r in q.next
    ensures var (s1, c) := NewOp(s, q.id);
      MidRun(p, steps[Key(c) := memo], q.next[r], s1)
  {
    var (s1, c) := NewOp(s, q.id);
    var steps1 := steps[Key(c) := memo];
    NextIsOpen(p, steps, q, s);
    assert Uses(q, q.id);
    ResumesBeyond(p, steps, q, s, memo, r);
    assert Ids(q.next[r]) <= Ids(q);
    forall k | k in steps1
      ensures exists x :: x in s1.calls && k == Key(x)
    {
      if k == Key(c) { assert c in s1.calls; }
      else { var x :| x in s.calls && k == Key(x); assert x in s1.calls; }
    }
  }

  /** One invocation that reaches the body of `c`. */
  lemma PassRunsBody(p: Prog, steps: map<string, Json>, q: Prog, s: State, target: Option<string>, planFirst: bool,
      bodies: Bodies)
    requires MidRun(p, steps, q, s) && q.Call? && q.tool.Run?
    requires var c := CallId(q.id, Next(s.indexes, q.id)); if target.Some? then target.value == Key(c) else !planFirst
    ensures var (s1, c) := NewOp(s, q.id);
      var (t, out) := RunBody(s1, c, bodies(c));
      Pass(p, Request(steps, target, planFirst), bodies) == Settle(t, out)
  {
    NextIsOpen(p, steps, q, s);
    assert Within(steps, steps) && Asked(steps, target, bodies);
  }

  /** What the executor makes of one execution of a body. */
  lemma DecideBody(s: State, c: CallId, b: BodyResult, ty: Ty, env: Env, steps: map<string, Json>,
      target: Option<string>, a: nat)
    requires Quiet(FRESH, s)
    ensures var (t, out) := RunBody(s, c, b);
      Decide(Settle(t, out), env, steps, target, a) ==
        if Breaks(b) then Over(Answer(Fails(FromBody(b, ty, c.id).err)))
        else if Retryable(b) && a < env.retries then Again(steps, target, a + 1)
        else Again(steps[Key(c) := Stored(b, env.raw)], None, 0)
  {
  }

  lemma PlusPlus(m: nat, n: nat, r: Option<(Reply, nat)>)
    ensures Plus(m, Plus(n, r)) == Plus(m + n, r)
  {
  }

  /** The executor's verdict on attempt `a` of the body of `c`. */
  function Attempted(env: Env, c: CallId, answers: nat -> Reply, steps: map<string, Json>, target: Option<string>,
      a: nat): Verdict
  {
    var b := env.bodies(c, a);
    if Breaks(b) then Over(answers(a))
    else if Retryable(b) && a < env.retries then Again(steps, target, a + 1)
    else Again(steps[Key(c) := Stored(b, env.raw)], None, 0)
  }

  /** The answer of a run that attempt `a` of the body of `c` ends. */
  function BodyAnswers(env: Env, c: CallId, ty: Ty): nat -> Reply {
    (a: nat) => Answer(BodyOutcome(env.bodies(c, a), ty, c.id))
  }

  function BodyOutcome(b: BodyResult, ty: Ty, id: string): Outcome {
    match FromBody(b, ty, id)
    case Good(r) => Returns(r)
    case Bad(e) => Fails(e)
  }

  lemma NextBody(serve: Server, p: Prog, steps: map<string, Json>, q: Prog, s: State, env: Env, planFirst: bool,
      target: Option<string>, a: nat)
    requires Serves(serve, p, env, planFirst)
    requires MidRun(p, steps, q, s) && q.Call? && q.tool.Run?
    requires var c := CallId(q.id, Next(s.indexes, q.id)); if target.Some? then target.value == Key(c) else !planFirst
    ensures var c := CallId(q.id, Next(s.indexes, q.id));
      serve(steps, target, a) == Attempted(env, c, BodyAnswers(env, c, q.ty), steps, target, a)
  {
    var (s1, c) := NewOp(s, q.id);
    PassRunsBody(p, steps, q, s, target, planFirst, Attempt(env, a));
    assert Asked(steps, target, Attempt(env, a));
    DecideBody(s1, c, env.bodies(c, a), q.ty, env, steps, target, a);
  }

  /** Rounds that only ask for another attempt. */
  lemma {:induction false} DriveRetries(serve: Server, steps: map<string, Json>, target: Option<string>, a: nat,
      last: nat, fuel: nat)
    requires a <= last && fuel > last - a
    requires forall n :: a <= n < last ==> serve(steps, target, n) == Again(steps, target, n + 1)
    ensures Drive(serve, steps, target, a, fuel)
      == Plus(last - a, Drive(serve, steps, target, last, fuel - (last - a)))
    decreases last - a
  {
    if a < last {
      assert serve(steps, target, a) == Again(steps, target, a + 1);
      DriveAgain(serve, steps, target, a, fuel);
      DriveRetries(serve, steps, target, a + 1, last, fuel - 1);
      PlusPlus(1, last - a - 1, Drive(serve, steps, target, last, fuel - (last - a)));
    }
  }

  /** Retries up to round `last`, which ends the run or stores a memo. */
  lemma DriveAttempts(serve: Server, steps: map<string, Json>, target: Option<string>, last: nat, verdict: Verdict,
      fuel: nat)
    requires fuel > last
    requires forall n :: 0 <= n < last ==> serve(steps, target, n) == Again(steps, target, n + 1)
    requires serve(steps, target, last) == verdict
    ensures verdict.Over? ==> Drive(serve, steps, target, 0, fuel) == Some((verdict.reply, last + 1))
    ensures verdict.Again? ==>
      Drive(serve, steps, target, 0, fuel)
        == Plus(last + 1, Drive(serve, verdict.steps, verdict.target, verdict.a, fuel - (last + 1)))
  {
    DriveRetries(serve, steps, target, 0, last, fuel);
    if verdict.Again? {
      PlusPlus(last, 1, Drive(serve, verdict.steps, verdict.target, verdict.a, fuel - (last + 1)));
    }
  }

  /** One invocation that reports the next step instead of running it. */
  lemma PassReports(p: Prog, steps: map<string, Json>, q: Prog, s: State, planFirst: bool, bodies: Bodies)
    requires MidRun(p, steps, q, s) && q.Call? && (planFirst || !q.tool.Run?)
    ensures var c := CallId(q.id, Next(s.indexes, q.id));
      Pass(p, Request(steps, None, planFirst), bodies)
        == Invocation(None, [if q.tool.Run? then PlanOp(c) else ToolOp(q.tool, c)], None)
  {
    NextIsOpen(p, steps, q, s);
    assert Within(steps, steps) && Asked(steps, None, bodies);
  }

  /** What the executor does about the op of an open call. */
  lemma DecideOpen(env: Env, steps: map<string, Json>, tool: Tool, c: CallId)
    ensures Decide(Invocation(None, [if tool.Run? then PlanOp(c) else ToolOp(tool, c)], None), env, steps, None, 0) ==
      if tool.Run? then Again(steps, Some(Key(c)), 0) else Again(steps[Key(c) := env.external(Key(c))], None, 0)
  {
  }

  /** The round that reports the next step. */
  lemma RoundReports(serve: Server, p: Prog, steps: map<string, Json>, q: Prog, s: State, env: Env, planFirst: bool)
    requires Serves(serve, p, env, planFirst)
    requires MidRun(p, steps, q, s) && q.Call? && (planFirst || !q.tool.Run?)
    ensures var c := CallId(q.id, Next(s.indexes, q.id));
      serve(steps, None, 0) ==
        if q.tool.Run? then Again(steps, Some(Key(c)), 0) else Again(steps[Key(c) := env.external(Key(c))], None, 0)
  {
    PassReports(p, steps, q, s, planFirst, Attempt(env, 0));
    assert Asked(steps, None, Attempt(env, 0));
    DecideOpen(env, steps, q.tool, CallId(q.id, Next(s.indexes, q.id)));
  }

  /** A round that asks for another one. */
  lemma DriveAgain(serve: Server, steps: map<string, Json>, target: Option<string>, a: nat, fuel: nat)
    requires fuel > 0 && serve(steps, target, a).Again?
    ensures var next := serve(steps, target, a);
      Drive(serve, steps, target, a, fuel) == Plus(1, Drive(serve, next.steps, next.target, next.a, fuel - 1))
  {
  }

  /** No result is stored in a form that is read as something else. */
  ghost predicate Faithful(env: Env) {
    forall c, a :: Readable(env.bodies(c, a), env.raw)
  }

  lemma StoredReadsBack(env: Env, tool: Tool, c: CallId, ty: Ty)
    requires Faithful(env) && (tool.Run? ==> !Breaks(Final(env, c)))
    ensures Decode(tool, SettledMemo(env, tool, c), ty, c.id) == Live(env)(tool, c, ty)
  {
    if tool.Run? {
      BodyReadsBack(Final(env, c), env.raw, ty, c.id);
    }
  }

  /** An invocation that ends with an error and no ops is final. */
  lemma ErrorIsFinal(e: GoErr, env: Env, steps: map<string, Json>, target: Option<string>, a: nat)
    ensures Decide(Invocation(None, [], Some(e)), env, steps, target, a) == Over(Answer(Fails(e)))
  {
  }

  /** A pass that stops at a bad memo, or one the code has no case for, ends with an error and no ops. */
  lemma PassEnds(q: Prog, s: State, req: Request, bodies: Bodies)
    requires q.Call? && Quiet(FRESH, s)
    requires var k := Key(CallId(q.id, Next(s.indexes, q.id)));
      && k in req.steps
      && var decoded := Decode(q.tool, req.steps[k], q.ty, q.id); decoded.Bad? || decoded.result !in q.next
    ensures var (t, out) := Exec(q, s, req, false, bodies);
      var memo := req.steps[Key(CallId(q.id, Next(s.indexes, q.id)))];
      Settle(t, out) == Invocation(None, [], Some(DeadEndError(Decode(q.tool, memo, q.ty, q.id))))
  {
  }

  /** So does the pass that gets there. */
  lemma LastPass(p: Prog, steps: map<string, Json>, q: Prog, s: State, planFirst: bool, memo: Json, bodies: Bodies)
    requires MidRun(p, steps, q, s) && q.Call?
    requires var decoded := Decode(q.tool, memo, q.ty, q.id); decoded.Bad? || decoded.result !in q.next
    ensures var c := CallId(q.id, Next(s.indexes, q.id));
      Pass(p, Request(steps[Key(c) := memo], None, planFirst), bodies)
        == Invocation(None, [], Some(DeadEndError(Decode(q.tool, memo, q.ty, q.id))))
  {
    var c := CallId(q.id, Next(s.indexes, q.id));
    NextIsOpen(p, steps, q, s);
    var steps1 := steps[Key(c) := memo];
    assert Within(steps, steps1) && Asked(steps1, None, bodies);
    PassEnds(q, s, Request(steps1, None, planFirst), bodies);
  }

  /** The error of a run that cannot go on from what a call gave it. */
  function DeadEndError(decoded: Decoded): GoErr {
    if decoded.Bad? then decoded.err else Crashed(NO_CASE).err
  }

  /** So one invocation ends the run. */
  lemma LastRound(serve: Server, p: Prog, steps: map<string, Json>, q: Prog, s: State, env: Env, planFirst: bool,
      memo: Json)
    requires Serves(serve, p, env, planFirst)
    requires MidRun(p, steps, q, s) && q.Call?
    requires var decoded := Decode(q.tool, memo, q.ty, q.id); decoded.Bad? || decoded.result !in q.next
    ensures var c := CallId(q.id, Next(s.indexes, q.id));
      serve(steps[Key(c) := memo], None, 0) == Over(Answer(Fails(DeadEndError(Decode(q.tool, memo, q.ty, q.id)))))
  {
    var steps1 := steps[Key(CallId(q.id, Next(s.indexes, q.id))) := memo];
    LastPass(p, steps, q, s, planFirst, memo, Attempt(env, 0));
    assert Asked(steps1, None, Attempt(env, 0));
    ErrorIsFinal(DeadEndError(Decode(q.tool, memo, q.ty, q.id)), env, steps1, None, 0);
  }

  /** The round that reaches the end of the code. */
  lemma EndRound(serve: Server, p: Prog, steps: map<string, Json>, q: Prog, s: State, env: Env, planFirst: bool)
    requires Serves(serve, p, env, planFirst)
    requires MidRun(p, steps, q, s) && (q.Return? || q.Crash?)
    ensures serve(steps, None, 0) == Over(Answer(Straight(q, s.indexes, Live(env)).out))
  {
    assert Within(steps, steps) && Asked(steps, None, Attempt(env, 0));
  }

  /** From this memo the executor gets the answer to `out` in `rounds` invocations. */
  ghost predicate Drives(serve: Server, steps: map<string, Json>, fuel: nat, out: Outcome, rounds: nat) {
    Drive(serve, steps, None, 0, fuel) == Some((Answer(out), rounds))
  }

  lemma DrivesAfter(serve: Server, steps: map<string, Json>, steps1: map<string, Json>, fuel: nat, n: nat,
      out: Outcome, rounds: nat)
    requires fuel >= n && Drive(serve, steps, None, 0, fuel) == Plus(n, Drive(serve, steps1, None, 0, fuel - n))
    requires Drives(serve, steps1, fuel - n, out, rounds)
    ensures Drives(serve, steps, fuel, out, n + rounds)
  {
  }

  /** A call whose body ends the run. */
  lemma DriveBroken(serve: Server, p: Prog, steps: map<string, Json>, q: Prog, s: State, env: Env, planFirst: bool,
      fuel: nat)
    requires Serves(serve, p, env, planFirst)
    requires MidRun(p, steps, q, s) && q.Call? && fuel >= Rounds(q, s.indexes, env, planFirst)
    requires q.tool.Run? && Breaks(Final(env, CallId(q.id, Next(s.indexes, q.id))))
    ensures Drives(serve, steps, fuel, Straight(q, s.indexes, Live(env)).out, Rounds(q, s.indexes, env, planFirst))
  {
    StepOfRun(serve, p, steps, q, s, env, planFirst, fuel);
  }

  lemma DriveOver(serve: Server, steps: map<string, Json>, fuel: nat, out: Outcome)
    requires fuel > 0 && serve(steps, None, 0) == Over(Answer(out))
    ensures Drives(serve, steps, fuel, out, 1)
  {
  }

  /** Where a straight run ends at a call it cannot go on from. */
  lemma DeadEnd(q: Prog, idx: map<string, nat>, env: Env, planFirst: bool)
    requires q.Call?
    requires var c := CallId(q.id, Next(idx, q.id));
      var decoded := Live(env)(q.tool, c, q.ty);
      !(q.tool.Run? && Breaks(Final(env, c))) && (decoded.Bad? || decoded.result !in q.next)
    ensures var c := CallId(q.id, Next(idx, q.id));
      var decoded := Live(env)(q.tool, c, q.ty);
      && Straight(q, idx, Live(env)).out == Fails(DeadEndError(decoded))
      && Rounds(q, idx, env, planFirst) == StepRounds(env, planFirst, q.tool, c) + 1
  {
  }

  /** A call whose memo the code cannot go on from. */
  lemma DriveDead(serve: Server, p: Prog, steps: map<string, Json>, q: Prog, s: State, env: Env, planFirst: bool,
      fuel: nat)
    requires Faithful(env)
    requires Serves(serve, p, env, planFirst)
    requires MidRun(p, steps, q, s) && q.Call? && fuel >= Rounds(q, s.indexes, env, planFirst)
    requires var c := CallId(q.id, Next(s.indexes, q.id));
      var decoded := Live(env)(q.tool, c, q.ty);
      !(q.tool.Run? && Breaks(Final(env, c))) && (decoded.Bad? || decoded.result !in q.next)
    ensures Drives(serve, steps, fuel, Straight(q, s.indexes, Live(env)).out, Rounds(q, s.indexes, env, planFirst))
  {
    var c := CallId(q.id, Next(s.indexes, q.id));
    var n := StepRounds(env, planFirst, q.tool, c);
    var steps1 := steps[Key(c) := SettledMemo(env, q.tool, c)];
    var out := Straight(q, s.indexes, Live(env)).out;
    DeadEnd(q, s.indexes, env, planFirst);
    StepOfRun(serve, p, steps, q, s, env, planFirst, fuel);
    StoredReadsBack(env, q.tool, c, q.ty);
    LastRound(serve, p, steps, q, s, env, planFirst, SettledMemo(env, q.tool, c));
    DriveOver(serve, steps1, fuel - n, out);
    DrivesAfter(serve, steps, steps1, fuel, n, out, 1);
  }

  /** The run's state once the next call's memo is stored. */
  lemma StepSettled(p: Prog, steps: map<string, Json>, q: Prog, s: State, env: Env, planFirst: bool, r: StepResult)
    requires Faithful(env)
    requires MidRun(p, steps, q, s) && q.Call? && r in q.next
    requires var c := CallId(q.id, Next(s.indexes, q.id));
      !(q.tool.Run? && Breaks(Final(env, c))) && Live(env)(q.tool, c, q.ty) == Good(r)
    ensures var (s1, c) := NewOp(s, q.id);
      && MidRun(p, steps[Key(c) := SettledMemo(env, q.tool, c)], q.next[r], s1)
      && Rounds(q, s.indexes, env, planFirst)
          == StepRounds(env, planFirst, q.tool, c) + Rounds(q.next[r], s1.indexes, env, planFirst)
  {
    var c := CallId(q.id, Next(s.indexes, q.id));
    StoredReadsBack(env, q.tool, c, q.ty);
    StepStored(p, steps, q, s, SettledMemo(env, q.tool, c), r);
  }

  /** A call the code goes on from: what is left of it answers for the whole. */
  lemma DriveOn(serve: Server, p: Prog, steps: map<string, Json>, q: Prog, s: State, env: Env, planFirst: bool,
      fuel: nat, r: StepResult, s1: State)
    requires Serves(serve, p, env, planFirst)
    requires MidRun(p, steps, q, s) && q.Call? && fuel >= Rounds(q, s.indexes, env, planFirst)
    requires var c := CallId(q.id, Next(s.indexes, q.id));
      && !(q.tool.Run? && Breaks(Final(env, c)))
      && Live(env)(q.tool, c, q.ty) == Good(r) && r in q.next && s1 == NewOp(s, q.id).0
    ensures var c := CallId(q.id, Next(s.indexes, q.id));
      (Drives(serve, steps[Key(c) := SettledMemo(env, q.tool, c)], fuel - StepRounds(env, planFirst, q.tool, c),
        Straight(q.next[r], s1.indexes, Live(env)).out, Rounds(q.next[r], s1.indexes, env, planFirst))
      ==> Drives(serve, steps, fuel, Straight(q, s.indexes, Live(env)).out, Rounds(q, s.indexes, env, planFirst)))
  {
    var c := CallId(q.id, Next(s.indexes, q.id));
    var steps1 := steps[Key(c) := SettledMemo(env, q.tool, c)];
    var left := fuel - StepRounds(env, planFirst, q.tool, c);
    var rest, rounds := Straight(q.next[r], s1.indexes, Live(env)), Rounds(q.next[r], s1.indexes, env, planFirst);
    StepOfRun(serve, p, steps, q, s, env, planFirst, fuel);
    if Drives(serve, steps1, left, rest.out, rounds) {
      DrivesAfter(serve, steps, steps1, fuel, StepRounds(env, planFirst, q.tool, c), rest.out, rounds);
    }
  }

  /** A call the code cannot go on from, or whose body ends the run. */
  predicate LastCall(q: Prog, idx: map<string, nat>, env: Env)
    requires q.Call?
  {
    var c := CallId(q.id, Next(idx, q.id));
    (q.tool.Run? && Breaks(Final(env, c)))
    || (var decoded := Live(env)(q.tool, c, q.ty); decoded.Bad? || decoded.result !in q.next)
  }

  lemma DriveLast(serve: Server, p: Prog, steps: map<string, Json>, q: Prog, s: State, env: Env, planFirst: bool,
      fuel: nat)
    requires Faithful(env)
    requires Serves(serve, p, env, planFirst)
    requires MidRun(p, steps, q, s) && q.Call? && LastCall(q, s.indexes, env)
    requires fuel >= Rounds(q, s.indexes, env, planFirst)
    ensures Drives(serve, steps, fuel, Straight(q, s.indexes, Live(env)).out, Rounds(q, s.indexes, env, planFirst))
  {
    if q.tool.Run? && Breaks(Final(env, CallId(q.id, Next(s.indexes, q.id)))) {
      DriveBroken(serve, p, steps, q, s, env, planFirst, fuel);
    } else {
      DriveDead(serve, p, steps, q, s, env, planFirst, fuel);
    }
  }

  /** Where a run goes on after a call: what is left of it answers for the whole. */
  lemma NextLeg(serve: Server, p: Prog, steps: map<string, Json>, q: Prog, s: State, env: Env, planFirst: bool,
      fuel: nat)
      returns (r: StepResult, steps1: map<string, Json>, s1: State, left: nat)
    requires Faithful(env)
    requires Serves(serve, p, env, planFirst)
    requires MidRun(p, steps, q, s) && q.Call? && !LastCall(q, s.indexes, env)
    requires fuel >= Rounds(q, s.indexes, env, planFirst)
    ensures r in q.next && MidRun(p, steps1, q.next[r], s1) && left >= Rounds(q.next[r], s1.indexes, env, planFirst)
    ensures Drives(serve, steps1, left, Straight(q.next[r], s1.indexes, Live(env)).out,
        Rounds(q.next[r], s1.indexes, env, planFirst))
      ==> Drives(serve, steps, fuel, Straight(q, s.indexes, Live(env)).out, Rounds(q, s.indexes, env, planFirst))
  {
    var c := CallId(q.id, Next(s.indexes, q.id));
    r := Live(env)(q.tool, c, q.ty).result;
    steps1 := steps[Key(c) := SettledMemo(env, q.tool, c)];
    s1 := NewOp(s, q.id).0;
    StepSettled(p, steps, q, s, env, planFirst, r);
    left := fuel - StepRounds(env, planFirst, q.tool, c);
    DriveOn(serve, p, steps, q, s, env, planFirst, fuel, r, s1);
  }

  /** The rest of a run, from any point of it. */
  lemma {:induction false} DriveRest(serve: Server, p: Prog, steps: map<string, Json>, q: Prog, s: State, env: Env,
      planFirst: bool, fuel: nat)
    requires Faithful(env)
    requires Serves(serve, p, env, planFirst)
    requires MidRun(p, steps, q, s) && fuel >= Rounds(q, s.indexes, env, planFirst)
    ensures Drives(serve, steps, fuel, Straight(q, s.indexes, Live(env)).out, Rounds(q, s.indexes, env, planFirst))
    decreases q
  {
    if !q.Call? {
      EndRound(serve, p, steps, q, s, env, planFirst);
    } else if LastCall(q, s.indexes, env) {
      DriveLast(serve, p, steps, q, s, env, planFirst, fuel);
    } else {
      var r, steps1, s1, left := NextLeg(serve, p, steps, q, s, env, planFirst, fuel);
      DriveRest(serve, p, steps1, q.next[r], s1, env, planFirst, left);
    }
  }

  /** The verdicts on the attempts of the next body: retry until the last one, which decides. */
  lemma AttemptVerdicts(serve: Server, p: Prog, steps: map<string, Json>, q: Prog, s: State, env: Env,
      planFirst: bool, target: Option<string>)
    requires Serves(serve, p, env, planFirst)
    requires MidRun(p, steps, q, s) && q.Call? && q.tool.Run?
    requires var c := CallId(q.id, Next(s.indexes, q.id)); if target.Some? then target.value == Key(c) else !planFirst
    ensures var c := CallId(q.id, Next(s.indexes, q.id));
      var last := LastAttempt(env, c, 0);
      && (forall n :: 0 <= n < last ==> serve(steps, target, n) == Again(steps, target, n + 1))
      && serve(steps, target, last) == RunVerdict(env, c, q.ty, steps)
  {
    var c := CallId(q.id, Next(s.indexes, q.id));
    var last := LastAttempt(env, c, 0);
    forall n | 0 <= n < last
      ensures serve(steps, target, n) == Again(steps, target, n + 1)
    {
      NextBody(serve, p, steps, q, s, env, planFirst, target, n);
    }
    NextBody(serve, p, steps, q, s, env, planFirst, target, last);
  }

  /** What the executor finally does about the body of `c`. */
  function RunVerdict(env: Env, c: CallId, ty: Ty, steps: map<string, Json>): Verdict {
    if Breaks(Final(env, c)) then Over(BodyAnswers(env, c, ty)(LastAttempt(env, c, 0)))
    else Again(steps[Key(c) := Stored(Final(env, c), env.raw)], None, 0)
  }

  lemma RunStepOfRun(serve: Server, p: Prog, steps: map<string, Json>, q: Prog, s: State, env: Env, planFirst: bool,
      fuel: nat)
    requires Serves(serve, p, env, planFirst)
    requires MidRun(p, steps, q, s) && q.Call? && q.tool.Run?
    requires fuel >= StepRounds(env, planFirst, q.tool, CallId(q.id, Next(s.indexes, q.id)))
    ensures var c := CallId(q.id, Next(s.indexes, q.id));
      var n := StepRounds(env, planFirst, q.tool, c);
      var verdict := RunVerdict(env, c, q.ty, steps);
      && (verdict.Over? ==> Drive(serve, steps, None, 0, fuel) == Some((verdict.reply, n)))
      && (verdict.Again? ==>
            Drive(serve, steps, None, 0, fuel) == Plus(n, Drive(serve, verdict.steps, None, 0, fuel - n)))
  {
    var c := CallId(q.id, Next(s.indexes, q.id));
    if planFirst {
      RoundReports(serve, p, steps, q, s, env, planFirst);
    }
    AttemptVerdicts(serve, p, steps, q, s, env, planFirst, if planFirst then Some(Key(c)) else None);
    var last := LastAttempt(env, c, 0);
    var verdict := RunVerdict(env, c, q.ty, steps);
    if planFirst {
      DriveAttempts(serve, steps, Some(Key(c)), last, verdict, fuel - 1);
      DriveAgain(serve, steps, None, 0, fuel);
      if verdict.Again? {
        PlusPlus(1, last + 1, Drive(serve, verdict.steps, None, 0, fuel - 1 - (last + 1)));
      }
    } else {
      DriveAttempts(serve, steps, None, last, verdict, fuel);
    }
  }

  /** The rounds of the next step of a run. */
  lemma StepOfRun(serve: Server, p: Prog, steps: map<string, Json>, q: Prog, s: State, env: Env, planFirst: bool,
      fuel: nat)
    requires Serves(serve, p, env, planFirst)
    requires MidRun(p, steps, q, s) && q.Call?
    requires fuel >= StepRounds(env, planFirst, q.tool, CallId(q.id, Next(s.indexes, q.id)))
    ensures var c := CallId(q.id, Next(s.indexes, q.id));
      var n := StepRounds(env, planFirst, q.tool, c);
      Drive(serve, steps, None, 0, fuel) ==
        if q.tool.Run? && Breaks(Final(env, c)) then Some((BodyAnswers(env, c, q.ty)(LastAttempt(env, c, 0)), n))
        else Plus(n, Drive(serve, steps[Key(c) := SettledMemo(env, q.tool, c)], None, 0, fuel - n))
  {
    if q.tool.Run? {
      RunStepOfRun(serve, p, steps, q, s, env, planFirst, fuel);
    } else {
      RoundReports(serve, p, steps, q, s, env, planFirst);
    }
  }

  /** Replaying from an empty memo gives exactly the straight run's answer, for every sequential
      workflow with collision-free ids and every environment, in one round per step attempt, one per
      planned `Run`, and one to finish; more rounds change nothing. */
  lemma ReplayRefinesStraightRun(p: Prog, env: Env, planFirst: bool, fuel: nat)
    requires Faithful(env)
    requires Sequential(p) && CollisionFree(Ids(p)) && fuel >= Rounds(p, map[], env, planFirst)
    ensures Drive(Serving(p, env, planFirst), map[], None, 0, fuel)
         == Some((Answer(Straight(p, map[], Live(env)).out), Rounds(p, map[], env, planFirst)))
  {
    DriveRest(Serving(p, env, planFirst), p, map[], p, FRESH, env, planFirst, fuel);
  }

  /** Number of `Run` calls among the calls of a straight run. */
  function Runs(p: Prog, idx: map<string, nat>, w: World): nat
    decreases p
  {
    match p
    case Call(tool, id, ty, next) =>
      var c := CallId(id, Next(idx, id));
      (if tool.Run? then 1 else 0) +
      (match w(tool, c, ty)
       case Good(r) => if r in next then Runs(next[r], idx[id := c.pos], w) else 0
       case Bad(_) => 0)
    case _ => 0
  }

  /** When no body fails, that is steps + 1 rounds, and one more per `Run` when the executor plans first. */
  lemma {:induction false} RoundsWhenNothingFails(p: Prog, idx: map<string, nat>, env: Env, planFirst: bool)
    requires Sequential(p)
    requires forall c: CallId :: env.bodies(c, 0).Returned? && env.bodies(c, 0).data.Some?
    ensures var d := Straight(p, idx, Live(env));
      Rounds(p, idx, env, planFirst) == |d.made| + 1 + (if planFirst then Runs(p, idx, Live(env)) else 0)
    decreases p
  {
    match p
    case Call(tool, id, ty, next) =>
      var c := CallId(id, Next(idx, id));
      assert LastAttempt(env, c, 0) == 0;
      var decoded := Live(env)(tool, c, ty);
      if decoded.Good? && decoded.result in next {
        RoundsWhenNothingFails(next[decoded.result], idx[id := c.pos], env, planFirst);
      }
    case _ =>
  }

  /** A larger memo only lets a sequential replay hand out more positions, never different ones. */
  lemma {:induction false} PositionsArePrefix(p: Prog, s: State, s': State, req: Request, req': Request,
      bodies: Bodies, bodies': Bodies)
    requires Sequential(p) && Within(req.steps, req'.steps)
    requires !s.cancelled && !s'.cancelled && s.indexes == s'.indexes && s.calls == s'.calls
    ensures Exec(p, s, req, false, bodies).0.calls <= Exec(p, s', req', false, bodies').0.calls
    decreases p
  {
    match p
    case Call(tool, id, ty, next) =>
      var (s1, c) := NewOp(s, id);
      var (s1', _) := NewOp(s', id);
      CallToolAdds(s, req, false, tool, id, ty, bodies);
      CallToolAdds(s', req', false, tool, id, ty, bodies');
      CallToolMoves(s', req', false, tool, id, ty, bodies');
      ExecMoves(p, s', req', false, bodies');
      var (t, out) := CallTool(s, req, false, tool, id, ty, bodies);
      var (t', out') := CallTool(s', req', false, tool, id, ty, bodies');
      assert t.calls == t'.calls == s.calls + [c];
      if out.Value? && out.value in next {
        assert out' == out;
        PositionsArePrefix(next[out.value], t, t', req, req', bodies, bodies');
      } else if out'.Value? && out'.value in next {
        ExecMoves(next[out'.value], t', req', false, bodies');
      }
    case _ =>
  }
}
