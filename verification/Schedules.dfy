/** Any executor schedule: what the memo can contain, what "done" means, and how a workflow with
    parallel branches gets there. */
module Schedules {
  import opened Json
  import opened Errors
  import opened StepKeys
  import opened Memo
  import opened Engine
  import opened Workflow
  import opened PassShape
  import opened Direct
  import opened Response
  import opened BodyOutcomes
  import opened Executor

  /** What the executor does: it serves a request (with any target, any flag, and bodies that may behave
      differently every time), or settles an op it was told about. */
  datatype Event =
    | Serve(target: Option<string>, planFirst: bool, bodies: Bodies, raw: bool)
    | Resolve(op: Opcode, value: Json)

  /** The executor's books: the memo, the ops reported to it, and the IDs of the bodies that completed. */
  datatype Ledger = Ledger(memo: map<string, Json>, reported: set<Opcode>, completed: seq<string>)

  const BLANK := Ledger(map[], {}, [])

  /** The values an executor may store for an op. */
  predicate MaySettle(op: Opcode, value: Json) {
    match op.kind
    case StepRun => false
    case StepPlanned => false
    case StepFailed =>
      op.error.Some? && value == WrapError(op.error.value.name, op.error.value.message, op.error.value.data)
    case _ => true
  }

  /** The report of a completed body, if the ops end with one. */
  predicate EndsWithRun(ops: seq<Opcode>) {
    ops != [] && ops[|ops| - 1].kind.StepRun? && ops[|ops| - 1].data.Some?
  }

  function Step(p: Prog, l: Ledger, e: Event): Ledger {
    match e
    case Serve(target, planFirst, bodies, raw) =>
      var inv := Pass(p, Request(l.memo, target, planFirst), bodies);
      if !Classify(inv).status.NotCompleted? then l
      else
        var l1 := l.(reported := l.reported + set op | op in inv.ops);
        if !EndsWithRun(inv.ops) then l1
        else
          var op := inv.ops[|inv.ops| - 1];
          l1.(memo := l1.memo[op.id := StoreAs(raw, op.data.value)], completed := l1.completed + [op.id])
    case Resolve(op, value) =>
      if op in l.reported && op.id !in l.memo && MaySettle(op, value) then l.(memo := l.memo[op.id := value]) else l
  }

  function After(p: Prog, es: seq<Event>): Ledger
    decreases |es|
  {
    if es == [] then BLANK else Step(p, After(p, es[..|es| - 1]), es[|es| - 1])
  }

  /** No event overwrites or drops a memo. */
  lemma StepGrows(p: Prog, l: Ledger, e: Event)
    ensures Within(l.memo, Step(p, l, e).memo)
  {
    if e.Serve? {
      OpsAreUnmemoized(p, Request(l.memo, e.target, e.planFirst), e.bodies);
    }
  }

  /** A world in which the calls the memo knows give what the memo says. */
  ghost predicate Knows(w: World, memo: map<string, Json>) {
    forall tool, c, ty :: Key(c) in memo ==> w(tool, c, ty) == Decode(tool, memo[Key(c)], ty, c.id)
  }

  lemma KnowsLess(w: World, a: map<string, Json>, b: map<string, Json>, made: seq<Made>)
    requires Knows(w, b) && Within(a, b)
    ensures Knows(w, a) && Agrees(a, made, w)
  {
  }

  /** Completions are distinct and memoized. */
  ghost predicate CompletedOnce(l: Ledger) {
    && (forall i, j :: 0 <= i < j < |l.completed| ==> l.completed[i] != l.completed[j])
    && (forall id :: id in l.completed ==> id in l.memo)
  }

  lemma StepCompletes(p: Prog, l: Ledger, e: Event)
    requires CompletedOnce(l)
    ensures CompletedOnce(Step(p, l, e))
  {
    StepGrows(p, l, e);
    var l' := Step(p, l, e);
    if l'.completed != l.completed {
      var req := Request(l.memo, e.target, e.planFirst);
      OpsAreUnmemoized(p, req, e.bodies);
      var ops := Pass(p, req, e.bodies).ops;
      var op := ops[|ops| - 1];
      assert op in ops && l'.completed == l.completed + [op.id] && op.id in l'.memo && op.id !in l.memo;
    }
  }

  /** Over a whole schedule no body completes twice, and every completion is in the memo. */
  lemma {:induction false} CompletesOnce(p: Prog, es: seq<Event>)
    ensures CompletedOnce(After(p, es))
    decreases |es|
  {
    if es != [] {
      CompletesOnce(p, es[..|es| - 1]);
      StepCompletes(p, After(p, es[..|es| - 1]), es[|es| - 1]);
    }
  }

  /** The world in which calls give what the memo says, and nothing else ever settles. */
  function Remembered(memo: map<string, Json>): World {
    (tool: Tool, c: CallId, ty: Ty) =>
      if Key(c) in memo then Decode(tool, memo[Key(c)], ty, c.id) else Bad(Text("not settled"))
  }

  /** The reply says done, with the value that this straight run returns. */
  predicate Reports(reply: Reply, out: Outcome) {
    out.Returns? && out.result.err.None? && reply.body == ResultBody(Some(out.result.value))
  }

  lemma DoneReports(p: Prog, steps: map<string, Json>, planFirst: bool, bodies: Bodies, w: World)
    requires WellScoped(p) && Agrees(steps, Straight(p, map[], w).made, w)
    requires Classify(Pass(p, Request(steps, None, planFirst), bodies)).status.Done?
    ensures Reports(Classify(Pass(p, Request(steps, None, planFirst), bodies)), Straight(p, map[], w).out)
  {
    DoneIfReturned(p, Request(steps, None, planFirst), bodies);
    ExecFollows(p, FRESH, Request(steps, None, planFirst), false, bodies, map[], w);
  }

  /** After any schedule, an untargeted "done" is the return value of the straight run, in every world that
      gives what the memo holds, and such a world exists. */
  lemma DoneIsStraightResult(p: Prog, es: seq<Event>, planFirst: bool, bodies: Bodies)
    requires WellScoped(p)
    ensures var memo := After(p, es).memo;
      var reply := Classify(Pass(p, Request(memo, None, planFirst), bodies));
      && Knows(Remembered(memo), memo)
      && (reply.status.Done? ==>
            forall w {:trigger Knows(w, memo)} :: Knows(w, memo) ==> Reports(reply, Straight(p, map[], w).out))
  {
    var memo := After(p, es).memo;
    if Classify(Pass(p, Request(memo, None, planFirst), bodies)).status.Done? {
      forall w {:trigger Knows(w, memo)} | Knows(w, memo)
        ensures Reports(Classify(Pass(p, Request(memo, None, planFirst), bodies)), Straight(p, map[], w).out)
      {
        DoneReports(p, memo, planFirst, bodies, w);
      }
    }
  }

  lemma DoneIfReturned(p: Prog, req: Request, bodies: Bodies)
    requires req.target.None?
    ensures var (_, out) := Exec(p, FRESH, req, false, bodies);
      var reply := Classify(Pass(p, req, bodies));
      (reply.status.Done? ==> out.Value? && out.value.err.None? && reply.body == ResultBody(Some(out.value.value)))
  {
    DoneIffReturned(p, req, bodies);
  }

  /** When the straight run returns, an untargeted pass returns exactly when all its calls are memoized;
      until then a plan-first pass ends with ops only, each a plan or request for a call of the straight
      run that is not memoized yet. */
  lemma PassProgress(p: Prog, steps: map<string, Json>, bodies: Bodies, w: World)
    requires WellScoped(p) && Agrees(steps, Straight(p, map[], w).made, w)
    requires Straight(p, map[], w).out.Returns?
    ensures var d := Straight(p, map[], w);
      var inv := Pass(p, Request(steps, None, true), bodies);
      if Covered(d.made, steps) then inv == Invocation(Some(d.out.result.value), [], d.out.result.err)
      else inv.ops != [] && inv.err.None? && inv.resp.None? && forall op :: op in inv.ops ==>
        op.id !in steps && exists m :: m in d.made && op == (if m.tool.Run? then PlanOp(m.c) else ToolOp(m.tool, m.c))
  {
    var req := Request(steps, None, true);
    var d := Straight(p, map[], w);
    ExecFollows(p, FRESH, req, false, bodies, map[], w);
    ExecMoves(p, FRESH, req, false, bodies);
    var (t, out) := Exec(p, FRESH, req, false, bodies);
    if !Covered(d.made, steps) {
      assert out.Hijack?;
      forall op | op in t.ops
        ensures op.id !in steps
        ensures exists m :: m in d.made && op == (if m.tool.Run? then PlanOp(m.c) else ToolOp(m.tool, m.c))
      {
        var i :| 0 <= i < |t.ops| && t.ops[i] == op;
        assert OpIn(t.ops[i], d.made, bodies) && !BodyOp(t.ops[i]);
        var m :| m in d.made && OpFor(op, m, bodies);
      }
    }
  }
}
