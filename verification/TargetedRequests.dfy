/** What a request aimed at one step comes to, told from the untargeted reply over the same memo. */
module TargetedRequests {
  import opened Json
  import opened StepKeys
  import opened Memo
  import opened Engine
  import opened Workflow
  import opened PassShape
  import opened Response
  import opened BodyOutcomes
  import opened BodyReports
  import opened PairedPasses

  /** No op before this one waits for the executor. */
  predicate ClearTo(ops: seq<Opcode>, i: nat) {
    forall j :: 0 <= j < i && j < |ops| ==> ops[j].kind.StepPlanned?
  }

  predicate OnlyPlans(ops: seq<Opcode>) {
    ClearTo(ops, |ops|)
  }

  /** Op `i` plans call `c`, and no op before it plans the same step. */
  predicate PlansFirst(ops: seq<Opcode>, i: nat, c: CallId) {
    i < |ops| && ops[i] == PlanOp(c) && forall j :: 0 <= j < i ==> !IsPlan(ops[j], Key(c))
  }

  /** Plans of distinct ops are first plans. */
  lemma PlanIsFirst(p: Prog, req: Request, bodies: Bodies, i: nat, c: CallId)
    requires CollisionFree(Ids(p)) && i < |Pass(p, req, bodies).ops| && Pass(p, req, bodies).ops[i] == PlanOp(c)
    ensures PlansFirst(Pass(p, req, bodies).ops, i, c)
  {
    OpIdsDistinct(p, req, bodies);
  }

  lemma SamePlan(a: CallId, b: CallId)
    requires PlanOp(a) == PlanOp(b)
    ensures a == b
  {
    KeyCollisions(a, b);
    assert a.id == b.id;
  }

  /** A request aimed at a planned call runs that call's body, whose report is the only op exactly when no
      waiting op is listed before the plan. */
  lemma AimedRuns(p: Prog, plan: Request, aim: Request, bodies: Bodies, i: nat, c: CallId)
    requires plan.target.None? && aim.target == Some(Key(c)) && plan.steps == aim.steps
    requires PlansFirst(Pass(p, plan, bodies).ops, i, c)
    ensures var t := Exec(p, FRESH, aim, false, bodies).0;
      && t.ran == [c] && t.cancelled
      && (!Breaks(bodies(c)) ==> t.ops != [] && (|t.ops| == 1 <==> ClearTo(Pass(p, plan, bodies).ops, i)))
  {
    var (t, out) := Exec(p, FRESH, plan, false, bodies);
    var (t', out') := Exec(p, FRESH, aim, false, bodies);
    ExecPaired(p, FRESH, FRESH, plan, aim, false, bodies);
    assert IsPlan(t.ops[i], Key(c));
    assert Plans(FRESH, t, Key(c));
    var k: nat :| FirstPlan(FRESH, t, Key(c), k) && RanPlan(FRESH, t, k, FRESH, t', bodies);
    assert k == i;
    SamePlan(c, t'.ran[0]);
    assert ClearTo(t.ops, i) <==> PlansUpTo(FRESH, t, i);
  }

  /** Exactly when a targeted body's failure is reported as its step's failure: when the untargeted reply
      over the same memo lists no waiting op before the plan of that step. Otherwise the whole function is
      reported as failed. */
  lemma TargetedFailureReportedIff(p: Prog, plan: Request, aim: Request, bodies: Bodies, i: nat, c: CallId)
    requires plan.target.None? && aim.target == Some(Key(c)) && plan.steps == aim.steps
    requires PlansFirst(Pass(p, plan, bodies).ops, i, c) && PlainFailure(bodies(c))
    ensures var reply := Classify(Pass(p, aim, bodies));
      && (reply.status.NotCompleted? <==> ClearTo(Pass(p, plan, bodies).ops, i))
      && (reply.status.Errored? <==> !ClearTo(Pass(p, plan, bodies).ops, i))
      && (reply.status.NotCompleted? ==> reply.body == OpsBody([FailOp(c, bodies(c).err, bodies(c).data)]))
  {
    AimedRuns(p, plan, aim, bodies, i, c);
    StepFailureReportedIff(p, aim, bodies, c);
  }

  /** A targeted request is reported "done" exactly when the untargeted plan-first reply over the same memo
      is "done", with the same result, or falsely, when that reply is a list of plans and of nothing else, and
      the target is not among them. */
  lemma TargetedDoneIff(p: Prog, req: Request, bodies: Bodies)
    requires req.target.Some?
    ensures var plan := Pass(p, Request(req.steps, None, true), bodies);
      var reply := Classify(Pass(p, req, bodies));
      && (reply.status.Done? <==>
            Classify(plan).status.Done?
            || (Classify(plan).status.NotCompleted? && OnlyPlans(plan.ops)
                && forall op :: op in plan.ops ==> op.id != req.target.value))
      && (Classify(plan).status.Done? ==> reply == Classify(plan))
      && (reply.status.Done? && !Classify(plan).status.Done? ==> reply.body == ResultBody(None))
  {
    var plan := Request(req.steps, None, true);
    var (t, out) := Exec(p, FRESH, plan, false, bodies);
    var (t', out') := Exec(p, FRESH, req, false, bodies);
    ExecPaired(p, FRESH, FRESH, plan, req, false, bodies);
    ExecMoves(p, FRESH, plan, false, bodies);
    ExecMoves(p, FRESH, req, false, bodies);
    if Plans(FRESH, t, req.target.value) {
      var k: nat :| FirstPlan(FRESH, t, req.target.value, k) && RanPlan(FRESH, t, k, FRESH, t', bodies);
      assert t.ops[k] in t.ops;
      ExecMarks(p, FRESH, req, false, bodies);
      RanIsNotDone(t', out', bodies);
    } else {
      StayedInStep(t, out, t', out', req.target.value);
    }
  }

  /** A pass that ran a body is not reported as done. */
  lemma RanIsNotDone(t: State, out: Ctl<StepResult>, bodies: Bodies)
    requires !out.Value? && Marked(FRESH, t, out.Panic?, bodies) && t.ran != []
    ensures !Classify(Settle(t, out)).status.Done?
  {
  }

  /** Two passes that stayed in step without running a body. */
  lemma StayedInStep(t: State, out: Ctl<StepResult>, t': State, out': Ctl<StepResult>, key: string)
    requires !t.cancelled && t'.err == t.err && out' == out && (t'.ops == [] <==> AllPlans(FRESH, t))
    requires !Plans(FRESH, t, key)
    requires (forall op :: op in t.ops || op in t'.ops ==> !BodyOp(op)) && (out.Value? ==> t.ops == [])
    requires out.Hijack? ==> t.ops != [] || t.err.Some?
    ensures var plan := Settle(t, out);
      var reply := Classify(Settle(t', out'));
      && (reply.status.Done? <==>
            Classify(plan).status.Done?
            || (Classify(plan).status.NotCompleted? && OnlyPlans(plan.ops)
                && forall op :: op in plan.ops ==> op.id != key))
      && (Classify(plan).status.Done? ==> reply == Classify(plan))
      && (reply.status.Done? && !Classify(plan).status.Done? ==> reply.body == ResultBody(None))
  {
    assert OnlyPlans(t.ops) <==> AllPlans(FRESH, t);
    assert forall i :: 0 <= i < |t.ops| ==> t.ops[i] in t.ops;
    assert forall i :: 0 <= i < |t'.ops| ==> t'.ops[i] in t'.ops;
    if OnlyPlans(t.ops) {
      forall op | op in t.ops
        ensures op.id != key
      {
        var i :| 0 <= i < |t.ops| && t.ops[i] == op;
        assert !IsPlan(t.ops[i], key);
      }
    }
  }
}
