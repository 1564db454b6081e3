/** Two passes over the same memo side by side: one untargeted, one aimed at a step. */
module PairedPasses {
  import opened Json
  import opened StepKeys
  import opened Memo
  import opened Engine
  import opened Workflow
  import opened PassShape
  import opened BodyOutcomes

  predicate IsPlan(op: Opcode, key: string) {
    op.kind.StepPlanned? && op.id == key
  }

  /** Among the ops between the two states is the plan of this step. */
  ghost predicate Plans(s: State, t: State, key: string) {
    s.ops <= t.ops && exists i :: |s.ops| <= i < |t.ops| && IsPlan(t.ops[i], key)
  }

  /** The first plan of this step between the two states is op `i`. */
  ghost predicate FirstPlan(s: State, t: State, key: string, i: nat) {
    |s.ops| <= i < |t.ops| && IsPlan(t.ops[i], key) && forall j :: |s.ops| <= j < i ==> !IsPlan(t.ops[j], key)
  }

  /** All ops between the two states, up to this one, are plans of bodies. */
  ghost predicate PlansUpTo(s: State, t: State, i: int) {
    s.ops <= t.ops && forall j :: |s.ops| <= j < i && j < |t.ops| ==> t.ops[j].kind.StepPlanned?
  }

  /** All ops between the two states are plans of bodies. */
  ghost predicate AllPlans(s: State, t: State) {
    PlansUpTo(s, t, |t.ops|)
  }

  /** Two passes are at the same point. */
  predicate InStep(s: State, s': State) {
    s.indexes == s'.indexes && !s.cancelled && !s'.cancelled && s.err == s'.err
  }

  /** The aimed pass ran the body the other one planned as op `i`; if the body does not end the run by
      itself, its report is the only op exactly when nothing but bodies was planned before it. */
  ghost predicate RanPlan(s: State, t: State, i: nat, s': State, t': State, bodies: Bodies) {
    && i < |t.ops| && t'.cancelled && s'.ran <= t'.ran && |t'.ran| == |s'.ran| + 1
    && t.ops[i] == PlanOp(t'.ran[|s'.ran|])
    && (!Breaks(bodies(t'.ran[|s'.ran|])) ==>
          |t'.ops| > |s'.ops| && (|t'.ops| == |s'.ops| + 1 <==> PlansUpTo(s, t, i)))
  }

  /** If the untargeted pass (s to t) plans the target, the aimed pass (s' to t') runs the body of its first
      plan; otherwise the two stay in step and end alike, unless the first stopped to run a body itself, and the
      aimed pass reports nothing exactly when the other only plans. */
  ghost predicate Paired<T(!new)>(s: State, t: State, out: Ctl<T>, s': State, t': State, out': Ctl<T>, key: string,
      bodies: Bodies)
  {
    if Plans(s, t, key) then exists i :: FirstPlan(s, t, key, i) && RanPlan(s, t, i, s', t', bodies)
    else
      t.cancelled
      || (InStep(t, t') && out' == out && t'.ran == s'.ran && (t'.ops == s'.ops <==> AllPlans(s, t)))
  }

  /** A `Run` without memo: planned by one pass and run by the other, if it is the target. */
  lemma FreshPaired(s: State, s': State, plan: Request, aim: Request, par: bool, c: CallId, bodies: Bodies)
    requires InStep(s, s') && plan.target.None? && aim.target.Some?
    ensures var (t, out) := RunFresh(s, plan, par, c, bodies);
      var (t', out') := RunFresh(s', aim, par, c, bodies);
      Paired(s, t, out, s', t', out', aim.target.value, bodies)
  {
    var key := aim.target.value;
    var t := RunFresh(s, plan, par, c, bodies).0;
    var t' := RunFresh(s', aim, par, c, bodies).0;
    if par || plan.planFirst {
      assert t.ops == s.ops + [PlanOp(c)] && t.ops[|s.ops|] == PlanOp(c);
      assert Plans(s, t, key) <==> Key(c) == key;
      if Key(c) == key {
        assert t'.ran == s'.ran + [c];
        assert FirstPlan(s, t, key, |s.ops|) && RanPlan(s, t, |s.ops|, s', t', bodies);
      }
    } else {
      assert t == RunBody(s, c, bodies(c)).0 && t.cancelled;
      assert forall i :: |s.ops| <= i < |t.ops| ==> !t.ops[i].kind.StepPlanned?;
    }
  }

  /** Numbering a call leaves what passes are compared by. */
  lemma NumberedPaired(s: State, s': State, id: string, t: State, out: Ctl<StepResult>,
      t': State, out': Ctl<StepResult>, key: string, bodies: Bodies)
    requires Paired(NewOp(s, id).0, t, out, NewOp(s', id).0, t', out', key, bodies)
    ensures Paired(s, t, out, s', t', out', key, bodies)
  {
    var s1, s1' := NewOp(s, id).0, NewOp(s', id).0;
    assert Plans(s, t, key) <==> Plans(s1, t, key);
    if Plans(s1, t, key) {
      var i: nat :| FirstPlan(s1, t, key, i) && RanPlan(s1, t, i, s1', t', bodies);
      assert FirstPlan(s, t, key, i) && RanPlan(s, t, i, s', t', bodies);
    }
  }

  lemma CallToolPaired(s: State, s': State, plan: Request, aim: Request, par: bool, tool: Tool, id: string, ty: Ty,
      bodies: Bodies)
    requires InStep(s, s') && plan.target.None? && aim.target.Some? && plan.steps == aim.steps
    ensures var (t, out) := CallTool(s, plan, par, tool, id, ty, bodies);
      var (t', out') := CallTool(s', aim, par, tool, id, ty, bodies);
      Paired(s, t, out, s', t', out', aim.target.value, bodies)
  {
    var (s1, c) := NewOp(s, id);
    var (s1', c') := NewOp(s', id);
    assert c' == c;
    var (t, out) := CallTool(s, plan, par, tool, id, ty, bodies);
    var (t', out') := CallTool(s', aim, par, tool, id, ty, bodies);
    if Key(c) !in plan.steps && tool.Run? {
      FreshPaired(s1, s1', plan, aim, par, c, bodies);
      NumberedPaired(s, s', id, t, out, t', out', aim.target.value, bodies);
    } else if Key(c) !in plan.steps {
      assert t.ops[|s.ops|] == ToolOp(tool, c);
    }
  }

  lemma PlansEither(s: State, s1: State, t: State, key: string)
    requires s.ops <= s1.ops <= t.ops
    ensures Plans(s, t, key) <==> Plans(s, s1, key) || Plans(s1, t, key)
  {
    if Plans(s, s1, key) {
      var i :| |s.ops| <= i < |s1.ops| && IsPlan(s1.ops[i], key);
      assert t.ops[i] == s1.ops[i];
    }
    if Plans(s, t, key) {
      var i :| |s.ops| <= i < |t.ops| && IsPlan(t.ops[i], key);
      if i < |s1.ops| { assert s1.ops[i] == t.ops[i]; }
    }
  }

  /** The plan is in the first leg; from there the aimed pass is frozen. */
  lemma PlannedBefore(s: State, s1: State, t: State, s': State, t': State, key: string, bodies: Bodies, i: nat)
    requires s.ops <= s1.ops <= t.ops && FirstPlan(s, s1, key, i) && RanPlan(s, s1, i, s', t', bodies)
    ensures FirstPlan(s, t, key, i) && RanPlan(s, t, i, s', t', bodies)
  {
    assert forall j :: 0 <= j <= i ==> t.ops[j] == s1.ops[j];
    assert PlansUpTo(s, s1, i) <==> PlansUpTo(s, t, i);
  }

  /** The plan is in the second leg, before which the passes were in step. */
  lemma PlannedAfter(s: State, s1: State, t: State, s': State, s1': State, t': State, key: string, bodies: Bodies,
      i: nat)
    requires s.ops <= s1.ops <= t.ops && s'.ops <= s1'.ops && s1'.ops <= t'.ops
    requires !Plans(s, s1, key) && s1'.ran == s'.ran && (s1'.ops == s'.ops <==> AllPlans(s, s1))
    requires FirstPlan(s1, t, key, i) && RanPlan(s1, t, i, s1', t', bodies)
    ensures FirstPlan(s, t, key, i) && RanPlan(s, t, i, s', t', bodies)
  {
    assert forall j :: 0 <= j < |s1.ops| ==> t.ops[j] == s1.ops[j];
    forall j | |s.ops| <= j < i
      ensures !IsPlan(t.ops[j], key)
    {
      if j < |s1.ops| { assert !IsPlan(s1.ops[j], key); }
    }
    assert PlansUpTo(s, t, i) <==> AllPlans(s, s1) && PlansUpTo(s1, t, i);
  }

  /** One leg after another. A cancelled pass is frozen. */
  lemma PairedThen<T(!new), U(!new)>(s: State, s1: State, t: State, out1: Ctl<T>, out: Ctl<U>,
                                     s': State, s1': State, t': State, out1': Ctl<T>, out': Ctl<U>,
                                     key: string, bodies: Bodies)
    requires s.ops <= s1.ops <= t.ops && s'.ops <= s1'.ops && s1'.ops <= t'.ops
    requires Paired(s, s1, out1, s', s1', out1', key, bodies)
    requires (s1.cancelled ==> t == s1) && (s1'.cancelled ==> t' == s1')
    requires !s1.cancelled && !Plans(s, s1, key) ==> Paired(s1, t, out, s1', t', out', key, bodies)
    ensures Paired(s, t, out, s', t', out', key, bodies)
  {
    PlansEither(s, s1, t, key);
    if Plans(s, s1, key) {
      var i :| FirstPlan(s, s1, key, i) && RanPlan(s, s1, i, s', s1', bodies);
      PlannedBefore(s, s1, t, s', t', key, bodies, i);
    } else if !s1.cancelled {
      if Plans(s1, t, key) {
        var i :| FirstPlan(s1, t, key, i) && RanPlan(s1, t, i, s1', t', bodies);
        PlannedAfter(s, s1, t, s', s1', t', key, bodies, i);
      } else if !t.cancelled {
        AllPlansBoth(s, s1, t);
      }
    }
  }

  lemma AllPlansBoth(s: State, s1: State, t: State)
    requires s.ops <= s1.ops <= t.ops
    ensures AllPlans(s, t) <==> AllPlans(s, s1) && AllPlans(s1, t)
  {
    assert forall j :: 0 <= j < |s1.ops| ==> t.ops[j] == s1.ops[j];
  }

  /** Whatever body an untargeted pass plans, a pass aimed at it runs, over any program; aimed elsewhere it
      does what the untargeted one does, without the plans. */
  lemma {:induction false} ExecPaired(p: Prog, s: State, s': State, plan: Request, aim: Request, par: bool,
      bodies: Bodies)
    requires InStep(s, s') && plan.target.None? && aim.target.Some? && plan.steps == aim.steps
    ensures var (t, out) := Exec(p, s, plan, par, bodies);
      var (t', out') := Exec(p, s', aim, par, bodies);
      Paired(s, t, out, s', t', out', aim.target.value, bodies)
    decreases p, 0
  {
    match p
    case Return(_, _) =>
    case Crash(_) =>
    case Call(tool, id, ty, next) =>
      CallToolPaired(s, s', plan, aim, par, tool, id, ty, bodies);
      CallToolMoves(s, plan, par, tool, id, ty, bodies);
      CallToolMoves(s', aim, par, tool, id, ty, bodies);
      var (s1, out) := CallTool(s, plan, par, tool, id, ty, bodies);
      var (s1', out') := CallTool(s', aim, par, tool, id, ty, bodies);
      if out.Value? && out.value in next {
        GoOn(next[out.value], s, s1, out, s', s1', out', plan, aim, par, bodies);
      }
    case Parallel(branches, join) =>
      ExecAllPaired(branches, s, s', plan, aim, bodies, NOTHING);
      ExecAllMoves(branches, s, plan, bodies, NOTHING);
      ExecAllMoves(branches, s', aim, bodies, NOTHING);
      var (s1, g) := ExecAll(branches, s, plan, bodies, NOTHING);
      var (s1', g') := ExecAll(branches, s', aim, bodies, NOTHING);
      if JoinUp(g).Value? && g.results in join {
        GoOn(join[g.results], s, s1, JoinUp(g), s', s1', JoinUp(g'), plan, aim, par, bodies);
      }
  }

  /** The rest of a program, after a quiet first leg. */
  lemma {:induction false} GoOn<T(!new)>(q: Prog, s: State, s1: State, out1: Ctl<T>, s': State, s1': State,
      out1': Ctl<T>, plan: Request, aim: Request, par: bool, bodies: Bodies)
    requires plan.target.None? && aim.target.Some? && plan.steps == aim.steps
    requires !s.cancelled && Quiet(s, s1) && s'.ops <= s1'.ops
    requires Paired(s, s1, out1, s', s1', out1', aim.target.value, bodies)
    ensures var (t, out) := Exec(q, s1, plan, par, bodies);
      var (t', out') := Exec(q, s1', aim, par, bodies);
      Paired(s, t, out, s', t', out', aim.target.value, bodies)
    decreases q, 1
  {
    ExecPaired(q, s1, s1', plan, aim, par, bodies);
    ExecMoves(q, s1, plan, par, bodies);
    ExecMoves(q, s1', aim, par, bodies);
    var (t, out) := Exec(q, s1, plan, par, bodies);
    var (t', out') := Exec(q, s1', aim, par, bodies);
    PairedThen(s, s1, t, out1, out, s', s1', t', out1', out', aim.target.value, bodies);
  }

  lemma {:induction false} ExecAllPaired(bs: seq<Prog>, s: State, s': State, plan: Request, aim: Request,
      bodies: Bodies, g: Gathered)
    requires InStep(s, s') && plan.target.None? && aim.target.Some? && plan.steps == aim.steps
    ensures var (t, h) := ExecAll(bs, s, plan, bodies, g);
      var (t', h') := ExecAll(bs, s', aim, bodies, g);
      Paired(s, t, JoinUp(h), s', t', JoinUp(h'), aim.target.value, bodies)
    decreases bs, 0
  {
    if bs != [] {
      var key := aim.target.value;
      ExecPaired(bs[0], s, s', plan, aim, true, bodies);
      ExecMoves(bs[0], s, plan, true, bodies);
      ExecMoves(bs[0], s', aim, true, bodies);
      var (s1, out) := Exec(bs[0], s, plan, true, bodies);
      var (s1', out') := Exec(bs[0], s', aim, true, bodies);
      ExecAllMoves(bs[1..], s1, plan, bodies, Gather(g, out));
      ExecAllMoves(bs[1..], s1', aim, bodies, Gather(g, out'));
      var (t, h) := ExecAll(bs[1..], s1, plan, bodies, Gather(g, out));
      var (t', h') := ExecAll(bs[1..], s1', aim, bodies, Gather(g, out'));
      if !s1.cancelled && !Plans(s, s1, key) {
        ExecAllPaired(bs[1..], s1, s1', plan, aim, bodies, Gather(g, out));
      }
      PairedThen(s, s1, t, out, JoinUp(h), s', s1', t', out', JoinUp(h'), key, bodies);
    }
  }
}
