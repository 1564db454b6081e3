/** How a step body is reported; a failing one as its step's failure, or as a failure of the whole function. */
module BodyReports {
  import opened Json
  import opened Errors
  import opened StepKeys
  import opened Memo
  import opened Engine
  import opened Workflow
  import opened PassShape
  import opened Response
  import opened BodyOutcomes

  predicate PlainFailure(b: BodyResult) {
    b.Failed? && !Breaks(b)
  }

  /** If a body ran between the two states, its report is the last op, and a failure's error is recorded. */
  ghost predicate Recorded(s: State, t: State, bodies: Bodies) {
    |t.ran| > |s.ran| ==>
      var c := t.ran[|s.ran|];
      !Breaks(bodies(c)) ==>
        && |t.ops| > |s.ops| && t.ops[|t.ops| - 1] == ReportOf(c, bodies(c))
        && (bodies(c).Failed? ==> t.err == Some(bodies(c).err))
  }

  lemma CallToolRecords(s: State, req: Request, par: bool, tool: Tool, id: string, ty: Ty, bodies: Bodies)
    ensures Recorded(s, CallTool(s, req, par, tool, id, ty, bodies).0, bodies)
  {
    if !s.cancelled {
      var (s1, c) := NewOp(s, id);
      var t := CallTool(s, req, par, tool, id, ty, bodies).0;
      if t.ran != s.ran {
        assert t == RunBody(s1, c, bodies(c)).0 && t.ran[|s.ran|] == c;
      }
    }
  }

  /** A body cancels the context, so what was recorded stays. */
  lemma RecordedThen(s: State, s1: State, t: State, req: Request, bodies: Bodies)
    requires Recorded(s, s1, bodies) && Recorded(s1, t, bodies) && Moves(s, s1, req) && Moves(s1, t, req)
    ensures Recorded(s, t, bodies)
  {
  }

  lemma {:induction false} ExecRecords(p: Prog, s: State, req: Request, par: bool, bodies: Bodies)
    ensures Recorded(s, Exec(p, s, req, par, bodies).0, bodies)
    decreases p, 0
  {
    match p
    case Return(_, _) =>
    case Crash(_) =>
    case Call(tool, id, ty, next) =>
      var (s1, out) := CallTool(s, req, par, tool, id, ty, bodies);
      CallToolRecords(s, req, par, tool, id, ty, bodies);
      if out.Value? && out.value in next {
        CallToolMoves(s, req, par, tool, id, ty, bodies);
        ExecMoves(next[out.value], s1, req, par, bodies);
        ExecRecords(next[out.value], s1, req, par, bodies);
        RecordedThen(s, s1, Exec(next[out.value], s1, req, par, bodies).0, req, bodies);
      }
    case Parallel(branches, join) =>
      var (s1, g) := ExecAll(branches, s, req, bodies, NOTHING);
      ExecAllRecords(branches, s, req, bodies, NOTHING);
      if JoinUp(g).Value? && g.results in join {
        ExecAllMoves(branches, s, req, bodies, NOTHING);
        ExecMoves(join[g.results], s1, req, par, bodies);
        ExecRecords(join[g.results], s1, req, par, bodies);
        RecordedThen(s, s1, Exec(join[g.results], s1, req, par, bodies).0, req, bodies);
      }
  }

  lemma {:induction false} ExecAllRecords(bs: seq<Prog>, s: State, req: Request, bodies: Bodies, g: Gathered)
    ensures Recorded(s, ExecAll(bs, s, req, bodies, g).0, bodies)
    decreases bs, 0
  {
    if bs != [] {
      var (s1, out) := Exec(bs[0], s, req, true, bodies);
      ExecMoves(bs[0], s, req, true, bodies);
      ExecRecords(bs[0], s, req, true, bodies);
      ExecAllMoves(bs[1..], s1, req, bodies, Gather(g, out));
      ExecAllRecords(bs[1..], s1, req, bodies, Gather(g, out));
      RecordedThen(s, s1, ExecAll(bs[1..], s1, req, bodies, Gather(g, out)).0, req, bodies);
    }
  }

  /** A pass that runs a body leaves a mark: an op, an error or a panic; a body that ends the run leaves an
      error or a panic, and no failure's report. */
  ghost predicate Marked(s: State, t: State, panicked: bool, bodies: Bodies) {
    |t.ran| > |s.ran| ==>
      && (|t.ops| > |s.ops| || t.err.Some? || panicked)
      && (Breaks(bodies(t.ran[|s.ran|])) ==>
            (t.err.Some? || panicked) && forall i :: |s.ops| <= i < |t.ops| ==> !t.ops[i].kind.StepFailed?)
  }

  lemma CallToolMarks(s: State, req: Request, par: bool, tool: Tool, id: string, ty: Ty, bodies: Bodies)
    ensures var (t, out) := CallTool(s, req, par, tool, id, ty, bodies); Marked(s, t, out.Panic?, bodies)
  {
    if !s.cancelled {
      var (s1, c) := NewOp(s, id);
      var t := CallTool(s, req, par, tool, id, ty, bodies).0;
      if t.ran != s.ran {
        assert t == RunBody(s1, c, bodies(c)).0 && t.ran[|s.ran|] == c;
      }
    }
  }

  /** What was marked before a cancelled, frozen rest stays marked; before a body nothing reports a failure. */
  lemma MarkedThen(s: State, s1: State, t: State, first: bool, panicked: bool, req: Request, bodies: Bodies)
    requires Moves(s, s1, req) && Moves(s1, t, req) && Marked(s, s1, first, bodies) && Marked(s1, t, panicked, bodies)
    requires first && s1.cancelled && !s.cancelled ==> panicked
    ensures Marked(s, t, panicked, bodies)
  {
    if |t.ran| > |s.ran| && |s1.ran| == |s.ran| {
      assert !s1.cancelled || s.cancelled;
      forall i | |s.ops| <= i < |s1.ops|
        ensures !t.ops[i].kind.StepFailed?
      {
        assert t.ops[i] == s1.ops[i] && !BodyOp(s1.ops[i]);
      }
    }
  }

  lemma {:induction false} ExecMarks(p: Prog, s: State, req: Request, par: bool, bodies: Bodies)
    ensures var (t, out) := Exec(p, s, req, par, bodies); Marked(s, t, out.Panic?, bodies)
    decreases p, 0
  {
    match p
    case Return(_, _) =>
    case Crash(_) =>
    case Call(tool, id, ty, next) =>
      CallToolMoves(s, req, par, tool, id, ty, bodies);
      CallToolMarks(s, req, par, tool, id, ty, bodies);
      var (s1, out) := CallTool(s, req, par, tool, id, ty, bodies);
      if out.Value? && out.value in next {
        ExecMarks(next[out.value], s1, req, par, bodies);
        ExecMoves(next[out.value], s1, req, par, bodies);
        var (t, last) := Exec(next[out.value], s1, req, par, bodies);
        MarkedThen(s, s1, t, out.Panic?, last.Panic?, req, bodies);
      }
    case Parallel(branches, join) =>
      ExecAllMarks(branches, s, req, bodies, NOTHING);
      ExecAllMoves(branches, s, req, bodies, NOTHING);
      var (s1, g) := ExecAll(branches, s, req, bodies, NOTHING);
      if JoinUp(g).Value? && g.results in join {
        ExecMarks(join[g.results], s1, req, par, bodies);
        ExecMoves(join[g.results], s1, req, par, bodies);
        var (t, last) := Exec(join[g.results], s1, req, par, bodies);
        MarkedThen(s, s1, t, false, last.Panic?, req, bodies);
      }
  }

  lemma {:induction false} ExecAllMarks(bs: seq<Prog>, s: State, req: Request, bodies: Bodies, g: Gathered)
    ensures var (t, h) := ExecAll(bs, s, req, bodies, g); Marked(s, t, h.panic.Some?, bodies)
    decreases bs, 0
  {
    if bs != [] {
      var (s1, out) := Exec(bs[0], s, req, true, bodies);
      ExecMoves(bs[0], s, req, true, bodies);
      ExecMarks(bs[0], s, req, true, bodies);
      ExecAllMoves(bs[1..], s1, req, bodies, Gather(g, out));
      ExecAllMarks(bs[1..], s1, req, bodies, Gather(g, out));
      var (t, h) := ExecAll(bs[1..], s1, req, bodies, Gather(g, out));
      MarkedThen(s, s1, t, out.Panic?, h.panic.Some?, req, bodies);
    }
  }

  /** A pass that ran a body which panics, returns what JSON cannot hold, or lets a step error through is
      reported as an error of the function. */
  lemma BrokenIsErrored(p: Prog, req: Request, bodies: Bodies)
    requires var ran := Exec(p, FRESH, req, false, bodies).0.ran; ran != [] && Breaks(bodies(ran[0]))
    ensures Classify(Pass(p, req, bodies)).status.Errored?
  {
    ExecMarks(p, FRESH, req, false, bodies);
    var (t, out) := Exec(p, FRESH, req, false, bodies);
    assert t.ran[|FRESH.ran|] == t.ran[0];
    assert !FailureReported(Pass(p, req, bodies));
  }

  /** An untargeted pass that runs a body reports nothing before it. */
  lemma {:induction false} ExecAlone(p: Prog, s: State, req: Request, par: bool, bodies: Bodies)
    requires req.target.None?
    ensures var t := Exec(p, s, req, par, bodies).0; t.ran != s.ran ==> |t.ops| <= |s.ops| + 1
    decreases p
  {
    match p
    case Return(_, _) =>
    case Crash(_) =>
    case Call(tool, id, ty, next) =>
      CallToolMoves(s, req, par, tool, id, ty, bodies);
      var (s1, out) := CallTool(s, req, par, tool, id, ty, bodies);
      CallToolAlone(s, req, par, tool, id, ty, bodies);
      if out.Value? && out.value in next {
        ExecAlone(next[out.value], s1, req, par, bodies);
      }
    case Parallel(branches, join) =>
      ExecAllMoves(branches, s, req, bodies, NOTHING);
      var (s1, g) := ExecAll(branches, s, req, bodies, NOTHING);
      if JoinUp(g).Value? && g.results in join {
        ExecAlone(join[g.results], s1, req, par, bodies);
      }
  }

  lemma CallToolAlone(s: State, req: Request, par: bool, tool: Tool, id: string, ty: Ty, bodies: Bodies)
    ensures |CallTool(s, req, par, tool, id, ty, bodies).0.ops| <= |s.ops| + 1
  {
  }

  /** A body that fails is reported as its step's failure, with the executor's retries for that step,
      exactly when no other op was planned before it in the same pass; otherwise the invocation is
      reported as an error of the function, and the ops are dropped. */
  lemma StepFailureReportedIff(p: Prog, req: Request, bodies: Bodies, c: CallId)
    requires Exec(p, FRESH, req, false, bodies).0.ran == [c] && PlainFailure(bodies(c))
    ensures var inv := Pass(p, req, bodies);
      var reply := Classify(inv);
      && inv.ops != [] && inv.ops[|inv.ops| - 1] == FailOp(c, bodies(c).err, bodies(c).data)
      && (reply.status.NotCompleted? <==> |inv.ops| == 1)
      && (reply.status.Errored? <==> |inv.ops| > 1)
      && (|inv.ops| == 1 ==> reply.body == OpsBody([FailOp(c, bodies(c).err, bodies(c).data)]))
  {
    ExecRecords(p, FRESH, req, false, bodies);
    var t := Exec(p, FRESH, req, false, bodies).0;
    assert t.ran[|FRESH.ran|] == c;
    var inv := Pass(p, req, bodies);
    assert inv.err.Some?;
    if |inv.ops| == 1 {
      assert inv.ops == [inv.ops[0]];
    }
  }

  /** A failure reported as its step's keeps the retry hints of the body's error, as they stand in its tree,
      exactly as long as no other branch panics; after a panic it carries none. */
  lemma StepFailureKeepsHints(p: Prog, req: Request, bodies: Bodies, c: CallId)
    requires Exec(p, FRESH, req, false, bodies).0.ran == [c] && PlainFailure(bodies(c))
    requires Classify(Pass(p, req, bodies)).status.NotCompleted?
    ensures var reply := Classify(Pass(p, req, bodies));
      if Exec(p, FRESH, req, false, bodies).1.Panic? then !reply.noRetry && reply.retryAt == None
      else (reply.noRetry <==> HasNoRetry(Some(bodies(c).err))) && TimesRetry(Some(bodies(c).err), reply.retryAt)
  {
    var inv := Pass(p, req, bodies);
    FailureIsRecorded(p, req, bodies, c);
    ClassifyTells(inv);
    if Exec(p, FRESH, req, false, bodies).1.Panic? {
      NodesOfText(inv.err.value);
    }
  }

  lemma NodesOfText(e: GoErr)
    requires e.Text?
    ensures Nodes(e) == [e]
  {
  }

  lemma FailureIsRecorded(p: Prog, req: Request, bodies: Bodies, c: CallId)
    requires Exec(p, FRESH, req, false, bodies).0.ran == [c] && PlainFailure(bodies(c))
    requires Classify(Pass(p, req, bodies)).status.NotCompleted?
    ensures var out := Exec(p, FRESH, req, false, bodies).1;
      var inv := Pass(p, req, bodies);
      && |inv.ops| == 1 && inv.ops[0].kind == StepFailed
      && inv.err == Some(if out.Panic? then Text("function panicked: " + out.msg) else bodies(c).err)
  {
    ExecRecords(p, FRESH, req, false, bodies);
    var t := Exec(p, FRESH, req, false, bodies).0;
    assert t.ran[|FRESH.ran|] == c;
    StepFailureReportedIff(p, req, bodies, c);
  }

  /** A sleep in one branch and a targeted, failing body in the next: the step's failure fails the function. */
  lemma SleepHidesStepFailure(sleep: string, work: string, ty: Ty, bodies: Bodies, join: imap<seq<StepResult>, Prog>)
    requires sleep != work && PlainFailure(bodies(CallId(work, 0)))
    ensures var p := Parallel([Once(Sleep("1s"), sleep, ty), Once(Run, work, ty)], join);
      Classify(Pass(p, Request(map[], Some(work), false), bodies)).status.Errored?
  {
    var bs := [Once(Sleep("1s"), sleep, ty), Once(Run, work, ty)];
    var p := Parallel(bs, join);
    var req := Request(map[], Some(work), false);
    var c := CallId(work, 0);
    var (s1, out1) := Exec(bs[0], FRESH, req, true, bodies);
    assert s1.ops == [ToolOp(Sleep("1s"), CallId(sleep, 0))] && s1.indexes == map[sleep := 0] && !s1.cancelled;
    assert Next(s1.indexes, work) == 0;
    var (s2, out2) := Exec(bs[1], s1, req, true, bodies);
    assert s2.ran == [c] && |s2.ops| == 2 && out2.Hijack?;
    assert bs[1..] == [bs[1]] && bs[1..][1..] == [];
    var g := Gather(Gather(NOTHING, out1), out2);
    assert ExecAll([], s2, req, bodies, g) == (s2, g);
    assert ExecAll(bs, FRESH, req, bodies, NOTHING) == (s2, g);
    StepFailureReportedIff(p, req, bodies, c);
  }
}
