/** How the ops of a reply are settled, and what a memo of settled calls holds. */
module Settlement {
  import opened Json
  import opened StepKeys
  import opened Memo
  import opened Engine
  import opened Workflow
  import opened PassShape
  import opened Direct
  import opened Response
  import opened BodyOutcomes
  import opened BodyReports
  import opened StraightKeys
  import opened TargetedRequests

  /** What each step body finally does, what other ops settle to, and whether results are stored raw. */
  datatype Outcomes = Outcomes(bodies: Bodies, external: string -> Json, raw: bool)

  /** No body returns something that is stored and then read as something else. */
  ghost predicate Storable(env: Outcomes) {
    forall c :: Readable(env.bodies(c), env.raw)
  }

  /** What the calls of a straight run give there: a body's own outcome, and the executor's answers. */
  function Yields(env: Outcomes): World {
    (tool: Tool, c: CallId, ty: Ty) =>
      if tool.Run? then FromBody(env.bodies(c), ty, c.id) else Decode(tool, env.external(Key(c)), ty, c.id)
  }

  function MemoFor(env: Outcomes, tool: Tool, c: CallId): Json {
    if tool.Run? then Stored(env.bodies(c), env.raw) else env.external(Key(c))
  }

  /** The call gets a memo: its body does not end the run by itself. */
  predicate CanSettle(m: Made, env: Outcomes) {
    m.tool.Run? ==> !Breaks(env.bodies(m.c))
  }

  /** A request's result and the bodies it ran. */
  function Served(p: Prog, env: Outcomes, req: Request): (Invocation, seq<CallId>) {
    var (t, out) := Exec(p, FRESH, req, false, env.bodies);
    (Settle(t, out), t.ran)
  }

  datatype Choice = Ends(reply: Reply) | Settles(key: string, value: Json) | Stuck

  /** What is stored for an op that reports a body, or asks the executor for something. */
  function SettleOp(op: Opcode, env: Outcomes): Choice {
    match op.kind
    case StepPlanned => Stuck
    case StepRun => if op.data.Some? then Settles(op.id, StoreAs(env.raw, op.data.value)) else Stuck
    case StepFailed =>
      if op.error.None? then Stuck
      else Settles(op.id, WrapError(op.error.value.name, op.error.value.message, op.error.value.data))
    case _ => Settles(op.id, env.external(op.id))
  }

  /** A targeted request settles its target if the reply is a list of ops that ends with its report. */
  function Targeted(ran: Invocation, id: string, env: Outcomes): Choice {
    var reply := Classify(ran);
    if !reply.status.NotCompleted? then Ends(reply)
    else if ran.ops == [] || ran.ops[|ran.ops| - 1].id != id then Stuck
    else SettleOp(ran.ops[|ran.ops| - 1], env)
  }

  /** The memo holds settled calls of the run, each with its own outcome. */
  ghost predicate Settled(memo: map<string, Json>, made: seq<Made>, env: Outcomes) {
    forall k :: k in memo ==> SettledAs(k, memo[k], made, env)
  }

  ghost predicate SettledAs(key: string, value: Json, made: seq<Made>, env: Outcomes) {
    exists m :: m in made && Key(m.c) == key && CanSettle(m, env) && value == MemoFor(env, m.tool, m.c)
  }

  lemma SettledAgrees(memo: map<string, Json>, made: seq<Made>, env: Outcomes)
    requires Storable(env) && Settled(memo, made, env) && KeysApart(made)
    ensures Agrees(memo, made, Yields(env))
  {
    forall m | m in made && Key(m.c) in memo
      ensures Decode(m.tool, memo[Key(m.c)], m.ty, m.c.id) == Yields(env)(m.tool, m.c, m.ty)
    {
      assert SettledAs(Key(m.c), memo[Key(m.c)], made, env);
      var m' :| m' in made && Key(m'.c) == Key(m.c) && CanSettle(m', env)
        && memo[Key(m.c)] == MemoFor(env, m'.tool, m'.c);
      SameCall(made, m, m');
      if m.tool.Run? {
        BodyReadsBack(env.bodies(m.c), env.raw, m.ty, m.c.id);
      }
    }
  }

  lemma SettledCount(memo: map<string, Json>, made: seq<Made>, env: Outcomes)
    requires Settled(memo, made, env) && KeysApart(made)
    ensures |memo| <= |made|
    ensures |memo| == |made| <==> Covered(made, memo)
  {
    CountKeys(made);
    forall k | k in memo ensures k in KeysOf(made) {
      assert SettledAs(k, memo[k], made, env);
      var m :| m in made && Key(m.c) == k;
      var i :| 0 <= i < |made| && made[i] == m;
    }
    assert memo.Keys <= KeysOf(made);
    SubsetCount(memo.Keys, KeysOf(made));
    if |memo| == |made| {
      forall m | m in made ensures Key(m.c) in memo {
        var i :| 0 <= i < |made| && made[i] == m;
        assert Key(made[i].c) in KeysOf(made);
      }
    }
    if Covered(made, memo) {
      forall k | k in KeysOf(made) ensures k in memo.Keys {
        var i :| 0 <= i < |made| && Key(made[i].c) == k;
        assert made[i] in made;
      }
      assert KeysOf(made) == memo.Keys;
    }
  }

  lemma SubsetCount<T>(a: set<T>, b: set<T>)
    requires a <= b
    ensures |a| <= |b| && (|a| == |b| ==> a == b)
  {
    assert b == a + (b - a);
  }

  /** Settling one call adds its own outcome to the memo. */
  lemma SettleOne(memo: map<string, Json>, made: seq<Made>, env: Outcomes, m: Made)
    requires Settled(memo, made, env) && m in made && CanSettle(m, env) && Key(m.c) !in memo
    ensures var memo' := memo[Key(m.c) := MemoFor(env, m.tool, m.c)]; Settled(memo', made, env) && |memo'| == |memo| + 1
  {
    var memo' := memo[Key(m.c) := MemoFor(env, m.tool, m.c)];
    forall k | k in memo'
      ensures SettledAs(k, memo'[k], made, env)
    {
      if k != Key(m.c) { assert SettledAs(k, memo[k], made, env); }
    }
  }

  /* ---------- the ops of a reply ---------- */

  /** The ops a reply may hold for a call. */
  predicate Offers(op: Opcode, m: Made, env: Outcomes) {
    if m.tool.Run? then op == PlanOp(m.c) || (CanSettle(m, env) && op == ReportOf(m.c, env.bodies(m.c)))
    else op == ToolOp(m.tool, m.c)
  }

  /** The op is for an open call of the run. */
  ghost predicate OffersOpen(op: Opcode, made: seq<Made>, memo: map<string, Json>, env: Outcomes) {
    exists m :: m in made && Key(m.c) !in memo && Offers(op, m, env)
  }

  lemma SameReport(a: CallId, b: CallId, x: Opcode, y: Opcode)
    requires x.id == Key(a) && x.name == a.id && y.id == Key(b) && y.name == b.id && x == y
    ensures a == b
  {
    KeyCollisions(a, b);
  }

  lemma OfferSettles(op: Opcode, m: Made, env: Outcomes)
    requires Offers(op, m, env) && !op.kind.StepPlanned?
    ensures op.id == Key(m.c) && CanSettle(m, env) && SettleOp(op, env) == Settles(Key(m.c), MemoFor(env, m.tool, m.c))
  {
  }

  /** What a pass leaves behind, told from its ops and bodies. */
  ghost predicate Traces(t: State, made: seq<Made>, env: Outcomes) {
    && NewOpsIn(FRESH, t, made, env.bodies) && NewRansIn(FRESH, t, made)
    && |t.ran| <= 1 && (t.ran == [] ==> forall op :: op in t.ops ==> !BodyOp(op))
    && (forall i :: 0 <= i < |t.ops| && BodyOp(t.ops[i]) ==> i == |t.ops| - 1)
    && Recorded(FRESH, t, env.bodies)
  }

  lemma PassTraces(p: Prog, req: Request, env: Outcomes)
    requires WellScoped(p) && Agrees(req.steps, Straight(p, map[], Yields(env)).made, Yields(env))
    ensures Traces(Exec(p, FRESH, req, false, env.bodies).0, Straight(p, map[], Yields(env)).made, env)
  {
    ExecFollows(p, FRESH, req, false, env.bodies, map[], Yields(env));
    ExecMoves(p, FRESH, req, false, env.bodies);
    ExecRecords(p, FRESH, req, false, env.bodies);
  }

  /** The body a pass ran is that of a call of the run. */
  lemma RanIsMade(t: State, made: seq<Made>, env: Outcomes) returns (m: Made)
    requires Traces(t, made, env) && t.ran != []
    ensures m in made && m.tool.Run? && t.ran == [m.c]
    ensures CanSettle(m, env) ==> t.ops != [] && t.ops[|t.ops| - 1] == ReportOf(m.c, env.bodies(m.c))
  {
    assert RunIn(t.ran[|FRESH.ran|], made);
    m :| m in made && m.c == t.ran[0] && m.tool.Run?;
  }

  lemma OpOffers(t: State, made: seq<Made>, memo: map<string, Json>, env: Outcomes, op: Opcode)
    requires Traces(t, made, env) && op in t.ops && op.id !in memo
    requires t.ran != [] ==> !Breaks(env.bodies(t.ran[0]))
    ensures OffersOpen(op, made, memo, env)
  {
    var i :| 0 <= i < |t.ops| && t.ops[i] == op;
    if BodyOp(op) {
      var m := RanIsMade(t, made, env);
      assert Offers(op, m, env);
    } else {
      assert OpIn(t.ops[i], made, env.bodies);
      var m :| m in made && OpFor(op, m, env.bodies);
      assert Offers(op, m, env);
    }
  }

  /** Over a truthful memo every op of a reply that is not an error is for an open call of the straight run. */
  lemma OpsOffer(p: Prog, req: Request, env: Outcomes)
    requires WellScoped(p) && Agrees(req.steps, Straight(p, map[], Yields(env)).made, Yields(env))
    requires !Classify(Pass(p, req, env.bodies)).status.Errored?
    ensures (forall op :: op in Pass(p, req, env.bodies).ops ==>
        OffersOpen(op, Straight(p, map[], Yields(env)).made, req.steps, env))
  {
    var t := Exec(p, FRESH, req, false, env.bodies).0;
    PassTraces(p, req, env);
    OpsAreUnmemoized(p, req, env.bodies);
    if t.ran != [] && Breaks(env.bodies(t.ran[0])) {
      BrokenIsErrored(p, req, env.bodies);
      assert false;
    }
    forall op | op in t.ops
      ensures OffersOpen(op, Straight(p, map[], Yields(env)).made, req.steps, env)
    {
      OpOffers(t, Straight(p, map[], Yields(env)).made, req.steps, env, op);
    }
  }

  /** The bodies an untargeted request ran, told from any of its ops. */
  lemma UntargetedRan(p: Prog, req: Request, env: Outcomes, op: Opcode, m: Made)
    requires WellScoped(p) && Agrees(req.steps, Straight(p, map[], Yields(env)).made, Yields(env))
    requires req.target.None? && op in Pass(p, req, env.bodies).ops && Offers(op, m, env)
    requires !Classify(Pass(p, req, env.bodies)).status.Errored?
    ensures Served(p, env, req).1 == if m.tool.Run? && !op.kind.StepPlanned? then [m.c] else []
  {
    var t := Exec(p, FRESH, req, false, env.bodies).0;
    PassTraces(p, req, env);
    ExecAlone(p, FRESH, req, false, env.bodies);
    if t.ran != [] && Breaks(env.bodies(t.ran[0])) {
      BrokenIsErrored(p, req, env.bodies);
      assert false;
    }
    RanByOp(t, Straight(p, map[], Yields(env)).made, env, op, m);
  }

  lemma RanByOp(t: State, made: seq<Made>, env: Outcomes, op: Opcode, m: Made)
    requires Traces(t, made, env) && op in t.ops && Offers(op, m, env)
    requires (t.ran != [] ==> |t.ops| <= 1 && !Breaks(env.bodies(t.ran[0])))
    ensures t.ran == if m.tool.Run? && !op.kind.StepPlanned? then [m.c] else []
  {
    if t.ran != [] {
      var x := RanIsMade(t, made, env);
      assert op == ReportOf(x.c, env.bodies(x.c));
      SameReport(x.c, m.c, op, ReportOf(m.c, env.bodies(m.c)));
    }
  }

  /* ---------- runs that return ---------- */

  /** A straight run that returns got through each of its calls. */
  lemma {:induction false} ReturnsIsGood(p: Prog, idx: map<string, nat>, w: World)
    ensures var d := Straight(p, idx, w); d.out.Returns? ==> forall m :: m in d.made ==> w(m.tool, m.c, m.ty).Good?
    decreases p, 0
  {
    match p
    case Return(_, _) =>
    case Crash(_) =>
    case Call(tool, id, ty, next) =>
      var c := CallId(id, Next(idx, id));
      var decoded := w(tool, c, ty);
      if decoded.Good? && decoded.result in next {
        ReturnsIsGood(next[decoded.result], idx[id := c.pos], w);
      }
    case Parallel(branches, join) =>
      AllReturnIsGood(branches, idx, w);
      var all := StraightAll(branches, idx, w);
      if all.failure.None? && all.results in join {
        ReturnsIsGood(join[all.results], all.indexes, w);
      }
  }

  lemma {:induction false} AllReturnIsGood(bs: seq<Prog>, idx: map<string, nat>, w: World)
    ensures var d := StraightAll(bs, idx, w); d.failure.None? ==> forall m :: m in d.made ==> w(m.tool, m.c, m.ty).Good?
    decreases bs, 0
  {
    if bs != [] {
      ReturnsIsGood(bs[0], idx, w);
      AllReturnIsGood(bs[1..], Straight(bs[0], idx, w).indexes, w);
    }
  }

  lemma ReturnsSettles(p: Prog, env: Outcomes, m: Made)
    requires var d := Straight(p, map[], Yields(env)); d.out.Returns? && m in d.made
    ensures CanSettle(m, env)
  {
    ReturnsIsGood(p, map[], Yields(env));
    assert Yields(env)(m.tool, m.c, m.ty).Good?;
    if m.tool.Run? {
      GoodDoesNotBreak(env.bodies(m.c), m.ty, m.c.id);
    }
  }

  /** A pass over a truthful memo of a returning run: no error but from a failing body. */
  lemma PassKeeps(p: Prog, req: Request, env: Outcomes)
    requires WellScoped(p)
    requires var d := Straight(p, map[], Yields(env)); Agrees(req.steps, d.made, Yields(env)) && d.out.Returns?
    ensures var (t, out) := Exec(p, FRESH, req, false, env.bodies);
      && (t.ran != [] ==> !Breaks(env.bodies(t.ran[0])))
      && ((forall c :: c in t.ran ==> !env.bodies(c).Failed?) ==> !out.Panic? && t.err.None?)
  {
    ExecFollows(p, FRESH, req, false, env.bodies, map[], Yields(env));
    PassTraces(p, req, env);
    var (t, out) := Exec(p, FRESH, req, false, env.bodies);
    if t.ran != [] {
      var m := RanIsMade(t, Straight(p, map[], Yields(env)).made, env);
      ReturnsSettles(p, env, m);
    }
    if forall c :: c in t.ran ==> !env.bodies(c).Failed? {
      forall i | 0 <= i < |t.ran|
        ensures env.bodies(t.ran[i]).Returned? && env.bodies(t.ran[i]).data.Some?
      {
        assert t.ran[i] == t.ran[0] && t.ran[i] in t.ran;
      }
      assert BodiesHeld(FRESH, t, env.bodies);
    }
  }

  /** Ops count as such unless a failing body's report comes after another op. */
  lemma OpsCount(t: State, out: Ctl<StepResult>, env: Outcomes)
    requires !out.Value? && |t.ran| <= 1 && Recorded(FRESH, t, env.bodies)
    requires t.ran != [] ==> !Breaks(env.bodies(t.ran[0]))
    requires (forall c :: c in t.ran ==> !env.bodies(c).Failed?) ==> !out.Panic? && t.err.None?
    requires t.ops != [] && (|t.ops| == 1 || forall c :: c in t.ran ==> !env.bodies(c).Failed?)
    ensures Classify(Settle(t, out)).status.NotCompleted?
  {
    if t.ran != [] && env.bodies(t.ran[0]).Failed? {
      assert t.ran[|FRESH.ran|] == t.ran[0];
      assert FailureReported(Settle(t, out));
    } else {
      assert forall c :: c in t.ran ==> c == t.ran[0];
    }
  }

  /** An untargeted pass over an unfinished, returning run ends with ops only; over a finished one it returns. */
  lemma PassOffers(p: Prog, memo: map<string, Json>, planFirst: bool, env: Outcomes)
    requires WellScoped(p)
    requires var d := Straight(p, map[], Yields(env)); Agrees(memo, d.made, Yields(env)) && d.out.Returns?
    ensures var d := Straight(p, map[], Yields(env));
      var inv := Pass(p, Request(memo, None, planFirst), env.bodies);
      && (Covered(d.made, memo) ==> inv == Invocation(Some(d.out.result.value), [], d.out.result.err))
      && (!Covered(d.made, memo) ==> inv.ops != [] && Classify(inv).status.NotCompleted?)
  {
    var req := Request(memo, None, planFirst);
    var d := Straight(p, map[], Yields(env));
    ExecFollows(p, FRESH, req, false, env.bodies, map[], Yields(env));
    ExecMoves(p, FRESH, req, false, env.bodies);
    var (t, out) := Exec(p, FRESH, req, false, env.bodies);
    if Covered(d.made, memo) {
      assert out.Value? && Quiet(FRESH, t);
    } else {
      ExecAlone(p, FRESH, req, false, env.bodies);
      ExecRecords(p, FRESH, req, false, env.bodies);
      PassKeeps(p, req, env);
      OpsReported(t, out, env);
      OpsCount(t, out, env);
    }
  }

  lemma OpsReported(t: State, out: Ctl<StepResult>, env: Outcomes)
    requires Recorded(FRESH, t, env.bodies) && (t.cancelled ==> t.ran != [])
    requires t.ran != [] ==> !Breaks(env.bodies(t.ran[0]))
    requires (forall c :: c in t.ran ==> !env.bodies(c).Failed?) ==> !out.Panic? && t.err.None?
    requires !out.Value? && (out.Hijack? ==> Explained(FRESH, t))
    ensures t.ops != []
  {
    if t.ran == [] {
      assert out.Hijack?;
    } else {
      assert t.ran[|FRESH.ran|] == t.ran[0];
    }
  }

  /* ---------- targeted requests ---------- */

  /** A reply to a request that ran one body: an error, or ops that settle the body. */
  lemma RanSettles(t: State, out: Ctl<StepResult>, env: Outcomes, m: Made)
    requires t.ran == [m.c] && m.tool.Run? && !out.Value?
    requires Recorded(FRESH, t, env.bodies) && Marked(FRESH, t, out.Panic?, env.bodies)
    requires !CanSettle(m, env) ==> Classify(Settle(t, out)).status.Errored?
    ensures var choice := Targeted(Settle(t, out), Key(m.c), env);
      if Classify(Settle(t, out)).status.NotCompleted?
      then CanSettle(m, env) && choice == Settles(Key(m.c), MemoFor(env, m.tool, m.c))
      else choice.Ends? && choice.reply.status.Errored?
  {
    RanIsNotDone(t, out, env.bodies);
    assert m.c == t.ran[|FRESH.ran|];
    if CanSettle(m, env) {
      OfferSettles(t.ops[|t.ops| - 1], m, env);
    }
  }

  /** A request aimed at a planned call runs its body, and settles it or ends with an error. When the
      workflow returns, it settles it exactly when the body does not fail or no waiting op is listed before
      the plan. */
  lemma TargetedRequestSettlesIff(p: Prog, memo: map<string, Json>, planFirst: bool, env: Outcomes, i: nat, m: Made)
    requires WellScoped(p) && m.tool.Run? && m in Straight(p, map[], Yields(env)).made
    requires Agrees(memo, Straight(p, map[], Yields(env)).made, Yields(env))
    requires PlansFirst(Pass(p, Request(memo, None, planFirst), env.bodies).ops, i, m.c)
    ensures var (inv, ran) := Served(p, env, Request(memo, Some(Key(m.c)), false));
      var choice := Targeted(inv, Key(m.c), env);
      && ran == [m.c]
      && ((CanSettle(m, env) && choice == Settles(Key(m.c), MemoFor(env, m.tool, m.c)))
          || (choice.Ends? && choice.reply.status.Errored?))
      && (Straight(p, map[], Yields(env)).out.Returns? ==>
            (choice.Settles? <==>
              !env.bodies(m.c).Failed? || ClearTo(Pass(p, Request(memo, None, planFirst), env.bodies).ops, i)))
  {
    var plan, aim := Request(memo, None, planFirst), Request(memo, Some(Key(m.c)), false);
    var (t, out) := Exec(p, FRESH, aim, false, env.bodies);
    AimedRuns(p, plan, aim, env.bodies, i, m.c);
    AimedEnds(p, aim, env, m);
    if Straight(p, map[], Yields(env)).out.Returns? {
      ReturnsSettles(p, env, m);
      if env.bodies(m.c).Failed? {
        TargetedFailureReportedIff(p, plan, aim, env.bodies, i, m.c);
      } else {
        PassKeeps(p, aim, env);
        AimedCounts(p, aim, env);
      }
    }
  }

  lemma AimedEnds(p: Prog, aim: Request, env: Outcomes, m: Made)
    requires m.tool.Run? && var t := Exec(p, FRESH, aim, false, env.bodies).0; t.ran == [m.c] && t.cancelled
    ensures var inv := Pass(p, aim, env.bodies);
      var choice := Targeted(inv, Key(m.c), env);
      if Classify(inv).status.NotCompleted?
      then CanSettle(m, env) && choice == Settles(Key(m.c), MemoFor(env, m.tool, m.c))
      else choice.Ends? && choice.reply.status.Errored?
  {
    var (t, out) := Exec(p, FRESH, aim, false, env.bodies);
    ExecMoves(p, FRESH, aim, false, env.bodies);
    ExecRecords(p, FRESH, aim, false, env.bodies);
    ExecMarks(p, FRESH, aim, false, env.bodies);
    if !CanSettle(m, env) {
      BrokenIsErrored(p, aim, env.bodies);
    }
    RanSettles(t, out, env, m);
  }

  lemma AimedCounts(p: Prog, aim: Request, env: Outcomes)
    requires var (t, out) := Exec(p, FRESH, aim, false, env.bodies);
      && t.ran != [] && t.ops != [] && !Breaks(env.bodies(t.ran[0])) && !env.bodies(t.ran[0]).Failed?
      && ((forall c :: c in t.ran ==> !env.bodies(c).Failed?) ==> !out.Panic? && t.err.None?)
    ensures Classify(Pass(p, aim, env.bodies)).status.NotCompleted?
  {
    var (t, out) := Exec(p, FRESH, aim, false, env.bodies);
    ExecMoves(p, FRESH, aim, false, env.bodies);
    ExecRecords(p, FRESH, aim, false, env.bodies);
    assert forall c :: c in t.ran ==> c == t.ran[0];
    OpsCount(t, out, env);
  }
}
