/** The reference semantics: the workflow run straight through, with no manager, ops or hijacks, and
    the relation between it and one pass over a partial memo. */
module Direct {
  import opened Json
  import opened Errors
  import opened StepKeys
  import opened Memo
  import opened Engine
  import opened Workflow
  import opened PassShape

  /** What each call yields when it is simply carried out. */
  type World = (Tool, CallId, Ty) -> Decoded

  datatype Outcome = Returns(result: StepResult) | Fails(err: GoErr)

  /** A call a run makes: which tool, which id and position, which result type. */
  datatype Made = Made(tool: Tool, c: CallId, ty: Ty)

  datatype Trace = Trace(indexes: map<string, nat>, made: seq<Made>, out: Outcome)

  datatype BranchRuns = BranchRuns(indexes: map<string, nat>, made: seq<Made>, results: seq<StepResult>,
      failure: Option<GoErr>)

  function Crashed(msg: string): Outcome {
    Fails(Text("function panicked: " + msg))
  }

  function Straight(p: Prog, idx: map<string, nat>, w: World): Trace
    decreases p, 0
  {
    match p
    case Return(value, err) => Trace(idx, [], Returns(StepResult(value, err)))
    case Crash(msg) => Trace(idx, [], Crashed(msg))
    case Call(tool, id, ty, next) =>
      var c := CallId(id, Next(idx, id));
      var idx1 := idx[id := c.pos];
      (match w(tool, c, ty)
       case Bad(e) => Trace(idx1, [Made(tool, c, ty)], Fails(e))
       case Good(r) =>
         if r in next then
           var rest := Straight(next[r], idx1, w);
           rest.(made := [Made(tool, c, ty)] + rest.made)
         else Trace(idx1, [Made(tool, c, ty)], Crashed(NO_CASE)))
    case Parallel(branches, join) =>
      var all := StraightAll(branches, idx, w);
      if all.failure.Some? then Trace(all.indexes, all.made, Fails(all.failure.value))
      else if all.results in join then
        var rest := Straight(join[all.results], all.indexes, w);
        rest.(made := all.made + rest.made)
      else Trace(all.indexes, all.made, Crashed(NO_CASE))
  }

  /** Branches one after the other; a failing branch does not keep the later ones from running. */
  function StraightAll(bs: seq<Prog>, idx: map<string, nat>, w: World): BranchRuns
    decreases bs, 0
  {
    if bs == [] then BranchRuns(idx, [], [], None)
    else
      var first := Straight(bs[0], idx, w);
      var rest := StraightAll(bs[1..], first.indexes, w);
      Before(first, rest)
  }

  function Before(first: Trace, rest: BranchRuns): BranchRuns {
    BranchRuns(rest.indexes, first.made + rest.made,
               if first.out.Returns? then [first.out.result] + rest.results else rest.results,
               if first.out.Fails? then Some(first.out.err) else rest.failure)
  }

  /** The program may call a tool with this id later than in every pass: after a first call, or after a join. */
  ghost predicate Late(p: Prog, id: string)
    decreases p
  {
    match p
    case Return(_, _) => false
    case Crash(_) => false
    case Call(_, _, _, next) => exists r :: r in next && Uses(next[r], id)
    case Parallel(branches, join) =>
      (exists b :: b in branches && Late(b, id)) || exists rs :: rs in join && Uses(join[rs], id)
  }

  /** No branch of a `Parallel` uses a step id that an earlier branch may not have counted yet. */
  ghost predicate Apart(bs: seq<Prog>) {
    forall i, j, id :: 0 <= i < j < |bs| ==> !(Late(bs[i], id) && Uses(bs[j], id))
  }

  ghost predicate WellScoped(p: Prog)
    decreases p
  {
    match p
    case Return(_, _) => true
    case Crash(_) => true
    case Call(_, _, _, next) => forall r :: r in next ==> WellScoped(next[r])
    case Parallel(branches, join) =>
      Apart(branches)
      && (forall b :: b in branches ==> WellScoped(b))
      && (forall rs :: rs in join ==> WellScoped(join[rs]))
  }

  ghost function IdsOfAll(bs: seq<Prog>): iset<string> {
    iset b, id | b in bs && Uses(b, id) :: id
  }

  /** The memo holds nothing about these calls that the world would not give. */
  ghost predicate Agrees(steps: map<string, Json>, made: seq<Made>, w: World) {
    forall m :: m in made && Key(m.c) in steps ==> Decode(m.tool, steps[Key(m.c)], m.ty, m.c.id) == w(m.tool, m.c, m.ty)
  }

  predicate SameNext(a: map<string, nat>, b: map<string, nat>, id: string) {
    Next(a, id) == Next(b, id)
  }

  ghost predicate Aligned(ids: iset<string>, a: map<string, nat>, b: map<string, nat>) {
    forall id :: id in ids ==> SameNext(a, b, id)
  }

  /** Alignment is not lost between (a, b) and (a', b'). */
  ghost predicate KeepsAligned(a: map<string, nat>, b: map<string, nat>, a': map<string, nat>, b': map<string, nat>) {
    forall id :: SameNext(a, b, id) ==> SameNext(a', b', id)
  }

  /** Ids outside the set are not counted. */
  ghost predicate Framed(ids: iset<string>, a: map<string, nat>, a': map<string, nat>) {
    forall id :: id !in ids ==> SameNext(a, a', id)
  }

  ghost predicate Covered(made: seq<Made>, steps: map<string, Json>) {
    forall m :: m in made ==> Key(m.c) in steps
  }

  ghost predicate CallIn(c: CallId, made: seq<Made>) {
    exists m :: m in made && m.c == c
  }

  /** Every call numbered between the two states is one of these. */
  ghost predicate NewCallsIn(s: State, t: State, made: seq<Made>) {
    s.calls <= t.calls && forall i :: |s.calls| <= i < |t.calls| ==> CallIn(t.calls[i], made)
  }

  /** The op belongs to this call: its plan, its body's report, or the request to carry it out. */
  predicate OpFor(op: Opcode, m: Made, bodies: Bodies) {
    if m.tool.Run? then
      op == PlanOp(m.c)
      || (bodies(m.c).Returned? && op == RunOp(m.c, bodies(m.c).data))
      || (bodies(m.c).Failed? && op == FailOp(m.c, bodies(m.c).err, bodies(m.c).data))
    else op == ToolOp(m.tool, m.c)
  }

  ghost predicate OpIn(op: Opcode, made: seq<Made>, bodies: Bodies) {
    exists m :: m in made && OpFor(op, m, bodies)
  }

  ghost predicate NewOpsIn(s: State, t: State, made: seq<Made>, bodies: Bodies) {
    s.ops <= t.ops && forall i :: |s.ops| <= i < |t.ops| ==> OpIn(t.ops[i], made, bodies)
  }

  ghost predicate RunIn(c: CallId, made: seq<Made>) {
    exists m :: m in made && m.c == c && m.tool.Run?
  }

  /** Every body run between the two states is that of one of these calls. */
  ghost predicate NewRansIn(s: State, t: State, made: seq<Made>) {
    s.ran <= t.ran && forall i :: |s.ran| <= i < |t.ran| ==> RunIn(t.ran[i], made)
  }

  ghost predicate NewIn(s: State, t: State, made: seq<Made>, bodies: Bodies) {
    NewCallsIn(s, t, made) && NewOpsIn(s, t, made, bodies) && NewRansIn(s, t, made)
  }

  /** No body run between the two states broke the pass. */
  predicate BodiesHeld(s: State, t: State, bodies: Bodies) {
    forall i :: |s.ran| <= i < |t.ran| ==> bodies(t.ran[i]).Returned? && bodies(t.ran[i]).data.Some?
  }

  /** How a pass from `s` to `t` follows a straight run `d` from `idx`: it makes no call and reports no op
      the run has no call for; if it gets through, the run returns the same value and every call was
      memoized; if every call is memoized and the run returns, it gets through; and unless a body broke
      it, it hits no error the run does not hit. */
  ghost predicate Follows(ids: iset<string>, s: State, t: State, out: Ctl<StepResult>, idx: map<string, nat>,
      d: Trace, req: Request, bodies: Bodies)
  {
    && Framed(ids, s.indexes, t.indexes)
    && NewIn(s, t, d.made, bodies)
    && (out.Value? ==> d.out == Returns(out.value) && Covered(d.made, req.steps))
    && (out.Value? ==> KeepsAligned(s.indexes, idx, t.indexes, d.indexes))
    && (!s.cancelled && d.out.Returns? && Covered(d.made, req.steps) ==> out.Value?)
    && (d.out.Returns? && BodiesHeld(s, t, bodies) ==> !out.Panic? && t.err == s.err)
  }

  ghost predicate FollowsAll(ids: iset<string>, s: State, t: State, g: Gathered, h: Gathered, idx: map<string, nat>,
      d: BranchRuns, req: Request, bodies: Bodies)
  {
    && Framed(ids, s.indexes, t.indexes)
    && NewIn(s, t, d.made, bodies)
    && (!h.planned && h.panic.None? ==> GotThrough(s, t, g, h, idx, d, req.steps))
    && (!s.cancelled && d.failure.None? && Covered(d.made, req.steps) ==> h.planned == g.planned && h.panic == g.panic)
    && (d.failure.None? && BodiesHeld(s, t, bodies) ==> h.panic == g.panic && t.err == s.err)
  }

  /** All branches returned what they return in the run, and every call was memoized. */
  ghost predicate GotThrough(s: State, t: State, g: Gathered, h: Gathered, idx: map<string, nat>, d: BranchRuns,
      steps: map<string, Json>)
  {
    && d.failure.None? && h.results == g.results + d.results
    && KeepsAligned(s.indexes, idx, t.indexes, d.indexes) && Covered(d.made, steps)
  }

  /** What one call of a tool appends. */
  lemma CallToolAppends(s: State, req: Request, par: bool, tool: Tool, id: string, ty: Ty, bodies: Bodies)
    requires !s.cancelled
    ensures var t := CallTool(s, req, par, tool, id, ty, bodies).0;
      var (s1, c) := NewOp(s, id);
      && t.calls == s1.calls && t.indexes == s1.indexes
      && (t.ops == s.ops || exists op :: t.ops == s.ops + [op] && OpFor(op, Made(tool, c, ty), bodies))
      && (t.ran == s.ran || t.ran == s.ran + [c])
  {
    var (s1, c) := NewOp(s, id);
    var t := CallTool(s, req, par, tool, id, ty, bodies).0;
    if t.ops != s.ops {
      var op := t.ops[|s.ops|];
      assert t.ops == s.ops + [op] && OpFor(op, Made(tool, c, ty), bodies);
    }
  }

  /** One call of a tool against one call of the run: what is numbered and reported. */
  lemma CallToolTraced(s: State, req: Request, par: bool, tool: Tool, id: string, ty: Ty, bodies: Bodies)
    ensures var t := CallTool(s, req, par, tool, id, ty, bodies).0;
      var m := Made(tool, CallId(id, Next(s.indexes, id)), ty);
      && NewIn(s, t, [m], bodies)
      && (forall x :: x != id ==> SameNext(s.indexes, t.indexes, x))
      && (!s.cancelled ==> t.indexes == s.indexes[id := m.c.pos])
  {
    var m := Made(tool, CallId(id, Next(s.indexes, id)), ty);
    assert m in [m];
    assert CallIn(m.c, [m]);
    if !s.cancelled {
      CallToolAppends(s, req, par, tool, id, ty, bodies);
      var t := CallTool(s, req, par, tool, id, ty, bodies).0;
      if t.ops != s.ops {
        assert OpIn(t.ops[|s.ops|], [m], bodies);
      }
    }
  }

  /** One call of a tool against one call of the run: how it ends. */
  lemma CallToolFollows(s: State, req: Request, par: bool, tool: Tool, id: string, ty: Ty, bodies: Bodies, w: World)
    requires Agrees(req.steps, [Made(tool, CallId(id, Next(s.indexes, id)), ty)], w)
    ensures var (t, out) := CallTool(s, req, par, tool, id, ty, bodies);
      var c := CallId(id, Next(s.indexes, id));
      var decoded := w(tool, c, ty);
      && (out.Value? ==> decoded == Good(out.value) && Key(c) in req.steps && !s.cancelled)
      && (!s.cancelled && Key(c) in req.steps && decoded.Good? ==> out.Value?)
      && (decoded.Good? && BodiesHeld(s, t, bodies) ==> !out.Panic? && t.err == s.err)
  {
    var m := Made(tool, CallId(id, Next(s.indexes, id)), ty);
    assert m in [m];
    var (t, out) := CallTool(s, req, par, tool, id, ty, bodies);
    if t.ran != s.ran {
      assert t.ran[|s.ran|] == m.c;
    }
  }

  lemma {:induction false} StraightFramed(p: Prog, idx: map<string, nat>, w: World)
    ensures Framed(Ids(p), idx, Straight(p, idx, w).indexes)
    decreases p, 0
  {
    match p
    case Return(_, _) =>
    case Crash(_) =>
    case Call(tool, id, ty, next) =>
      assert Uses(p, id);
      var c := CallId(id, Next(idx, id));
      var decoded := w(tool, c, ty);
      if decoded.Good? && decoded.result in next {
        StraightFramed(next[decoded.result], idx[id := c.pos], w);
        assert Ids(next[decoded.result]) <= Ids(p);
      }
    case Parallel(branches, join) =>
      StraightAllFramed(branches, idx, w);
      assert IdsOfAll(branches) <= Ids(p);
      var all := StraightAll(branches, idx, w);
      if all.failure.None? && all.results in join {
        StraightFramed(join[all.results], all.indexes, w);
        assert Ids(join[all.results]) <= Ids(p);
      }
  }

  lemma {:induction false} StraightAllFramed(bs: seq<Prog>, idx: map<string, nat>, w: World)
    ensures Framed(IdsOfAll(bs), idx, StraightAll(bs, idx, w).indexes)
    decreases bs, 0
  {
    if bs != [] {
      StraightFramed(bs[0], idx, w);
      StraightAllFramed(bs[1..], Straight(bs[0], idx, w).indexes, w);
      assert Ids(bs[0]) <= IdsOfAll(bs) && IdsOfAll(bs[1..]) <= IdsOfAll(bs);
    }
  }

  /** A pass only counts ids the program uses. */
  lemma {:induction false} ExecFramed(p: Prog, s: State, req: Request, par: bool, bodies: Bodies)
    ensures Framed(Ids(p), s.indexes, Exec(p, s, req, par, bodies).0.indexes)
    decreases p, 0
  {
    match p
    case Return(_, _) =>
    case Crash(_) =>
    case Call(tool, id, ty, next) =>
      assert Uses(p, id);
      CallToolTraced(s, req, par, tool, id, ty, bodies);
      var (s1, out) := CallTool(s, req, par, tool, id, ty, bodies);
      if out.Value? && out.value in next {
        ExecFramed(next[out.value], s1, req, par, bodies);
        assert Ids(next[out.value]) <= Ids(p);
      }
    case Parallel(branches, join) =>
      ExecAllFramed(branches, s, req, bodies, NOTHING);
      assert IdsOfAll(branches) <= Ids(p);
      var (s1, g) := ExecAll(branches, s, req, bodies, NOTHING);
      if JoinUp(g).Value? && g.results in join {
        ExecFramed(join[g.results], s1, req, par, bodies);
        assert Ids(join[g.results]) <= Ids(p);
      }
  }

  lemma {:induction false} ExecAllFramed(bs: seq<Prog>, s: State, req: Request, bodies: Bodies, g: Gathered)
    ensures Framed(IdsOfAll(bs), s.indexes, ExecAll(bs, s, req, bodies, g).0.indexes)
    decreases bs, 0
  {
    if bs != [] {
      var (s1, out) := Exec(bs[0], s, req, true, bodies);
      ExecFramed(bs[0], s, req, true, bodies);
      ExecAllFramed(bs[1..], s1, req, bodies, Gather(g, out));
      assert Ids(bs[0]) <= IdsOfAll(bs) && IdsOfAll(bs[1..]) <= IdsOfAll(bs);
    }
  }

  /** Ids outside `late` that were counted alike before are counted alike after. */
  ghost predicate FrontKept(late: iset<string>, a: map<string, nat>, b: map<string, nat>, a': map<string, nat>,
      b': map<string, nat>)
  {
    forall id :: id !in late && SameNext(a, b, id) ==> SameNext(a', b', id)
  }

  ghost function LateIds(p: Prog): iset<string> {
    iset id | Late(p, id)
  }

  ghost function LateOfAll(bs: seq<Prog>): iset<string> {
    iset b, id | b in bs && Late(b, id) :: id
  }

  /** Whatever the memo, a pass that no body cancels counts the calls that are not late just as the straight
      run does. */
  lemma {:induction false} ExecFront(p: Prog, s: State, req: Request, par: bool, bodies: Bodies,
      idx: map<string, nat>, w: World)
    ensures var t := Exec(p, s, req, par, bodies).0;
      !t.cancelled ==> FrontKept(LateIds(p), s.indexes, idx, t.indexes, Straight(p, idx, w).indexes)
    decreases p, 1
  {
    match p
    case Return(_, _) =>
    case Crash(_) =>
    case Call(_, _, _, _) => CallFront(p, s, req, par, bodies, idx, w);
    case Parallel(_, _) => ParallelFront(p, s, req, par, bodies, idx, w);
  }

  /** Beyond its first call a pass only counts late ids. */
  lemma PassIsLate(p: Prog, s: State, req: Request, par: bool, bodies: Bodies)
    requires p.Call? && !s.cancelled
    ensures Framed(LateIds(p), s.indexes[p.id := Next(s.indexes, p.id)], Exec(p, s, req, par, bodies).0.indexes)
  {
    CallToolTraced(s, req, par, p.tool, p.id, p.ty, bodies);
    var (s1, out) := CallTool(s, req, par, p.tool, p.id, p.ty, bodies);
    if out.Value? && out.value in p.next {
      ExecFramed(p.next[out.value], s1, req, par, bodies);
      assert Ids(p.next[out.value]) <= LateIds(p);
    }
  }

  /** So does a straight run. */
  lemma StraightIsLate(p: Prog, idx: map<string, nat>, w: World)
    requires p.Call?
    ensures Framed(LateIds(p), idx[p.id := Next(idx, p.id)], Straight(p, idx, w).indexes)
  {
    var c := CallId(p.id, Next(idx, p.id));
    var decoded := w(p.tool, c, p.ty);
    if decoded.Good? && decoded.result in p.next {
      StraightFramed(p.next[decoded.result], idx[p.id := c.pos], w);
      assert Ids(p.next[decoded.result]) <= LateIds(p);
    }
  }

  lemma BothLate(late: iset<string>, id: string, a: map<string, nat>, b: map<string, nat>,
      a': map<string, nat>, b': map<string, nat>)
    requires Framed(late, a[id := Next(a, id)], a') && Framed(late, b[id := Next(b, id)], b')
    ensures FrontKept(late, a, b, a', b')
  {
    forall x | x !in late && SameNext(a, b, x)
      ensures SameNext(a', b', x)
    {
      assert SameNext(a[id := Next(a, id)], b[id := Next(b, id)], x);
      assert SameNext(a[id := Next(a, id)], a', x) && SameNext(b[id := Next(b, id)], b', x);
    }
  }

  lemma CallFront(p: Prog, s: State, req: Request, par: bool, bodies: Bodies, idx: map<string, nat>, w: World)
    requires p.Call?
    ensures var t := Exec(p, s, req, par, bodies).0;
      !t.cancelled ==> FrontKept(LateIds(p), s.indexes, idx, t.indexes, Straight(p, idx, w).indexes)
  {
    if !s.cancelled {
      PassIsLate(p, s, req, par, bodies);
      StraightIsLate(p, idx, w);
      BothLate(LateIds(p), p.id, s.indexes, idx, Exec(p, s, req, par, bodies).0.indexes, Straight(p, idx, w).indexes);
    }
  }

  lemma {:induction false} ParallelFront(p: Prog, s: State, req: Request, par: bool, bodies: Bodies,
      idx: map<string, nat>, w: World)
    requires p.Parallel?
    ensures var t := Exec(p, s, req, par, bodies).0;
      !t.cancelled ==> FrontKept(LateIds(p), s.indexes, idx, t.indexes, Straight(p, idx, w).indexes)
    decreases p, 0
  {
    var Parallel(branches, join) := p;
    ExecAllFront(branches, s, req, bodies, NOTHING, idx, w);
    assert LateOfAll(branches) <= LateIds(p);
    var (s1, g) := ExecAll(branches, s, req, bodies, NOTHING);
    if JoinUp(g).Value? && g.results in join {
      ExecFramed(join[g.results], s1, req, par, bodies);
      ExecMoves(join[g.results], s1, req, par, bodies);
      assert Ids(join[g.results]) <= LateIds(p);
    }
    var all := StraightAll(branches, idx, w);
    if all.failure.None? && all.results in join {
      StraightFramed(join[all.results], all.indexes, w);
      assert Ids(join[all.results]) <= LateIds(p);
    }
  }

  lemma {:induction false} ExecAllFront(bs: seq<Prog>, s: State, req: Request, bodies: Bodies, g: Gathered,
      idx: map<string, nat>, w: World)
    ensures var t := ExecAll(bs, s, req, bodies, g).0;
      !t.cancelled ==> FrontKept(LateOfAll(bs), s.indexes, idx, t.indexes, StraightAll(bs, idx, w).indexes)
    decreases bs, 0
  {
    if bs != [] {
      var (s1, out) := Exec(bs[0], s, req, true, bodies);
      ExecFront(bs[0], s, req, true, bodies, idx, w);
      ExecAllFront(bs[1..], s1, req, bodies, Gather(g, out), Straight(bs[0], idx, w).indexes, w);
      ExecAllMoves(bs[1..], s1, req, bodies, Gather(g, out));
      assert LateIds(bs[0]) <= LateOfAll(bs) && LateOfAll(bs[1..]) <= LateOfAll(bs);
    }
  }

  /** New calls and ops of two stretches are among the calls of both. */
  lemma NewInBoth(s: State, s1: State, t: State, a: seq<Made>, b: seq<Made>, bodies: Bodies)
    requires NewIn(s, s1, a, bodies)
    requires NewIn(s1, t, b, bodies)
    ensures NewIn(s, t, a + b, bodies)
  {
    assert forall m :: m in a || m in b ==> m in a + b;
    forall i | |s.calls| <= i < |t.calls|
      ensures CallIn(t.calls[i], a + b)
    {
      if i < |s1.calls| {
        assert CallIn(s1.calls[i], a);
      } else {
        assert CallIn(t.calls[i], b);
      }
    }
    forall i | |s.ran| <= i < |t.ran|
      ensures RunIn(t.ran[i], a + b)
    {
      if i < |s1.ran| {
        assert RunIn(s1.ran[i], a);
      } else {
        assert RunIn(t.ran[i], b);
      }
    }
    forall i | |s.ops| <= i < |t.ops|
      ensures OpIn(t.ops[i], a + b, bodies)
    {
      if i < |s1.ops| {
        assert OpIn(s1.ops[i], a, bodies);
      } else {
        assert OpIn(t.ops[i], b, bodies);
      }
    }
  }

  lemma CoveredBoth(a: seq<Made>, b: seq<Made>, steps: map<string, Json>)
    ensures Covered(a + b, steps) <==> Covered(a, steps) && Covered(b, steps)
  {
    assert forall m :: m in a + b <==> m in a || m in b;
  }

  lemma AgreesBoth(a: seq<Made>, b: seq<Made>, steps: map<string, Json>, w: World)
    ensures Agrees(steps, a + b, w) <==> Agrees(steps, a, w) && Agrees(steps, b, w)
  {
    assert forall m :: m in a + b <==> m in a || m in b;
  }

  /** A pass that gets quietly from `s` to `s1`, matching the calls `pre`, and follows `rest` from there. */
  lemma FollowsThen(ids: iset<string>, idsQ: iset<string>, s: State, s1: State, t: State, out: Ctl<StepResult>,
                    idx: map<string, nat>, idx1: map<string, nat>, pre: seq<Made>, rest: Trace,
                    req: Request, bodies: Bodies)
    requires idsQ <= ids && Quiet(s, s1)
    requires Framed(ids, s.indexes, s1.indexes) && NewIn(s, s1, pre, bodies)
    requires KeepsAligned(s.indexes, idx, s1.indexes, idx1) && Covered(pre, req.steps)
    requires Follows(idsQ, s1, t, out, idx1, rest, req, bodies)
    ensures Follows(ids, s, t, out, idx, rest.(made := pre + rest.made), req, bodies)
  {
    CoveredBoth(pre, rest.made, req.steps);
    NewInBoth(s, s1, t, pre, rest.made, bodies);
  }

  /** One pass, from any state, follows the straight run over the settled memo. */
  lemma {:induction false} ExecFollows(p: Prog, s: State, req: Request, par: bool, bodies: Bodies,
      idx: map<string, nat>, w: World)
    requires WellScoped(p) && (s.cancelled || Aligned(Ids(p), s.indexes, idx))
    requires Agrees(req.steps, Straight(p, idx, w).made, w)
    ensures var (t, out) := Exec(p, s, req, par, bodies);
      Follows(Ids(p), s, t, out, idx, Straight(p, idx, w), req, bodies)
    decreases p, 1
  {
    match p
    case Return(_, _) =>
    case Crash(_) =>
    case Call(tool, id, ty, next) => CallFollows(p, s, req, par, bodies, idx, w);
    case Parallel(branches, join) => ParallelFollows(p, s, req, par, bodies, idx, w);
  }

  /** What one call of the run asks of the rest. */
  lemma SplitCall(p: Prog, s: State, steps: map<string, Json>, idx: map<string, nat>, w: World)
    requires p.Call? && Aligned(Ids(p), s.indexes, idx) && Agrees(steps, Straight(p, idx, w).made, w)
    ensures var c := CallId(p.id, Next(idx, p.id)); var m := Made(p.tool, c, p.ty);
      var d := Straight(p, idx, w);
      && Next(s.indexes, p.id) == c.pos && d.made != [] && d.made == [m] + d.made[1..]
      && Agrees(steps, [m], w) && Agrees(steps, d.made[1..], w)
      && (Covered(d.made, steps) <==> Covered([m], steps) && Covered(d.made[1..], steps))
  {
    assert Uses(p, p.id) && p.id in Ids(p);
    assert SameNext(s.indexes, idx, p.id);
    var m := Made(p.tool, CallId(p.id, Next(idx, p.id)), p.ty);
    var d := Straight(p, idx, w);
    assert d.made == [m] + d.made[1..];
    AgreesBoth([m], d.made[1..], steps, w);
    CoveredBoth([m], d.made[1..], steps);
  }

  /** A call that ends the pass. */
  lemma CallStops(p: Prog, s: State, req: Request, par: bool, bodies: Bodies, idx: map<string, nat>, w: World)
    requires p.Call? && Aligned(Ids(p), s.indexes, idx) && Agrees(req.steps, Straight(p, idx, w).made, w)
    requires var out := CallTool(s, req, par, p.tool, p.id, p.ty, bodies).1; !(out.Value? && out.value in p.next)
    ensures var (t, out) := Exec(p, s, req, par, bodies);
      Follows(Ids(p), s, t, out, idx, Straight(p, idx, w), req, bodies)
  {
    SplitCall(p, s, req.steps, idx, w);
    assert Uses(p, p.id);
    var m := Made(p.tool, CallId(p.id, Next(idx, p.id)), p.ty);
    CallToolFollows(s, req, par, p.tool, p.id, p.ty, bodies, w);
    CallToolTraced(s, req, par, p.tool, p.id, p.ty, bodies);
    var s1 := CallTool(s, req, par, p.tool, p.id, p.ty, bodies).0;
    NewInBoth(s, s1, s1, [m], Straight(p, idx, w).made[1..], bodies);
  }

  /** After a call both sides made, what is left is aligned again. */
  lemma AlignedNext(p: Prog, q: Prog, a: map<string, nat>, b: map<string, nat>)
    requires p.Call? && Aligned(Ids(p), a, b) && Ids(q) <= Ids(p)
    ensures Aligned(Ids(q), a[p.id := Next(b, p.id)], b[p.id := Next(b, p.id)])
  {
    forall x | x in Ids(q)
      ensures SameNext(a[p.id := Next(b, p.id)], b[p.id := Next(b, p.id)], x)
    {
      assert SameNext(a, b, x);
    }
  }

  /** A call that both sides go on from. */
  lemma CallOpens(p: Prog, s: State, req: Request, par: bool, bodies: Bodies, idx: map<string, nat>, w: World)
    requires p.Call? && !s.cancelled && Aligned(Ids(p), s.indexes, idx)
    requires Agrees(req.steps, Straight(p, idx, w).made, w)
    requires var out1 := CallTool(s, req, par, p.tool, p.id, p.ty, bodies).1; out1.Value? && out1.value in p.next
    ensures var (s1, out1) := CallTool(s, req, par, p.tool, p.id, p.ty, bodies);
      var c := CallId(p.id, Next(idx, p.id));
      var rest := Straight(p.next[out1.value], idx[p.id := c.pos], w);
      && Exec(p, s, req, par, bodies) == Exec(p.next[out1.value], s1, req, par, bodies)
      && Straight(p, idx, w) == rest.(made := [Made(p.tool, c, p.ty)] + rest.made)
      && Covered([Made(p.tool, c, p.ty)], req.steps) && Quiet(s, s1)
  {
    SplitCall(p, s, req.steps, idx, w);
    CallToolFollows(s, req, par, p.tool, p.id, p.ty, bodies, w);
    CallToolMoves(s, req, par, p.tool, p.id, p.ty, bodies);
  }

  /** A call that the pass goes on from. */
  lemma CallGoesOn(p: Prog, s: State, req: Request, par: bool, bodies: Bodies, idx: map<string, nat>, w: World, q: Prog)
    requires p.Call? && !s.cancelled && Aligned(Ids(p), s.indexes, idx)
    requires Agrees(req.steps, Straight(p, idx, w).made, w)
    requires var (s1, out1) := CallTool(s, req, par, p.tool, p.id, p.ty, bodies);
      var idx1 := idx[p.id := Next(idx, p.id)];
      && out1.Value? && out1.value in p.next && q == p.next[out1.value]
      && var (t, out) := Exec(q, s1, req, par, bodies);
         Follows(Ids(q), s1, t, out, idx1, Straight(q, idx1, w), req, bodies)
    ensures var (t, out) := Exec(p, s, req, par, bodies);
      Follows(Ids(p), s, t, out, idx, Straight(p, idx, w), req, bodies)
  {
    CallOpens(p, s, req, par, bodies, idx, w);
    assert Uses(p, p.id) && Ids(q) <= Ids(p);
    assert SameNext(s.indexes, idx, p.id);
    var c := CallId(p.id, Next(idx, p.id));
    var idx1 := idx[p.id := c.pos];
    CallToolTraced(s, req, par, p.tool, p.id, p.ty, bodies);
    var s1 := CallTool(s, req, par, p.tool, p.id, p.ty, bodies).0;
    var (t, out) := Exec(q, s1, req, par, bodies);
    FollowsThen(Ids(p), Ids(q), s, s1, t, out, idx, idx1, [Made(p.tool, c, p.ty)], Straight(q, idx1, w), req, bodies);
  }

  lemma {:induction false} CallFollows(p: Prog, s: State, req: Request, par: bool, bodies: Bodies,
      idx: map<string, nat>, w: World)
    requires p.Call?
    requires WellScoped(p) && (s.cancelled || Aligned(Ids(p), s.indexes, idx))
    requires Agrees(req.steps, Straight(p, idx, w).made, w)
    ensures var (t, out) := Exec(p, s, req, par, bodies);
      Follows(Ids(p), s, t, out, idx, Straight(p, idx, w), req, bodies)
    decreases p, 0
  {
    if s.cancelled {
      return;
    }
    var (s1, out1) := CallTool(s, req, par, p.tool, p.id, p.ty, bodies);
    if !(out1.Value? && out1.value in p.next) {
      CallStops(p, s, req, par, bodies, idx, w);
      return;
    }
    var q := p.next[out1.value];
    SplitCall(p, s, req.steps, idx, w);
    CallToolFollows(s, req, par, p.tool, p.id, p.ty, bodies, w);
    CallToolTraced(s, req, par, p.tool, p.id, p.ty, bodies);
    AlignedNext(p, q, s.indexes, idx);
    ExecFollows(q, s1, req, par, bodies, idx[p.id := Next(idx, p.id)], w);
    CallGoesOn(p, s, req, par, bodies, idx, w, q);
  }

  /** What the branches of the run ask of the rest. */
  lemma SplitParallel(p: Prog, steps: map<string, Json>, idx: map<string, nat>, w: World)
    requires p.Parallel? && Agrees(steps, Straight(p, idx, w).made, w)
    ensures var all := StraightAll(p.branches, idx, w);
      var d := Straight(p, idx, w);
      && |all.made| <= |d.made| && d.made == all.made + d.made[|all.made|..]
      && Agrees(steps, all.made, w) && Agrees(steps, d.made[|all.made|..], w)
      && (Covered(d.made, steps) <==> Covered(all.made, steps) && Covered(d.made[|all.made|..], steps))
  {
    var all := StraightAll(p.branches, idx, w);
    var d := Straight(p, idx, w);
    assert d.made == all.made + d.made[|all.made|..];
    AgreesBoth(all.made, d.made[|all.made|..], steps, w);
    CoveredBoth(all.made, d.made[|all.made|..], steps);
  }

  /** An ending that the branches alone decide. */
  lemma BranchesEnd(ids: iset<string>, inner: iset<string>, s: State, t: State, g: Gathered, out: Ctl<StepResult>,
      idx: map<string, nat>, all: BranchRuns, d: Trace, req: Request, bodies: Bodies)
    requires inner <= ids && FollowsAll(inner, s, t, NOTHING, g, idx, all, req, bodies)
    requires NewIn(s, t, d.made, bodies) && (Covered(d.made, req.steps) ==> Covered(all.made, req.steps))
    requires d.out.Returns? ==> all.failure.None? && (g.planned || g.panic.Some?) && (out.Panic? ==> g.panic.Some?)
    requires !out.Value?
    ensures Follows(ids, s, t, out, idx, d, req, bodies)
  {
  }

  /** Branches that end the pass. */
  lemma ParallelStops(p: Prog, s: State, req: Request, par: bool, bodies: Bodies, idx: map<string, nat>, w: World)
    requires p.Parallel? && Agrees(req.steps, Straight(p, idx, w).made, w)
    requires var (s1, g) := ExecAll(p.branches, s, req, bodies, NOTHING);
      && FollowsAll(IdsOfAll(p.branches), s, s1, NOTHING, g, idx, StraightAll(p.branches, idx, w), req, bodies)
      && !(JoinUp(g).Value? && g.results in p.join)
    ensures var (t, out) := Exec(p, s, req, par, bodies);
      Follows(Ids(p), s, t, out, idx, Straight(p, idx, w), req, bodies)
  {
    SplitParallel(p, req.steps, idx, w);
    var all := StraightAll(p.branches, idx, w);
    var d := Straight(p, idx, w);
    var (s1, g) := ExecAll(p.branches, s, req, bodies, NOTHING);
    NewInBoth(s, s1, s1, all.made, d.made[|all.made|..], bodies);
    assert JoinUp(g).Value? ==> g.results == all.results;
    BranchesEnd(Ids(p), IdsOfAll(p.branches), s, s1, g, Exec(p, s, req, par, bodies).1, idx, all, d, req, bodies);
  }

  lemma {:induction false} ParallelFollows(p: Prog, s: State, req: Request, par: bool, bodies: Bodies,
      idx: map<string, nat>, w: World)
    requires p.Parallel?
    requires WellScoped(p) && (s.cancelled || Aligned(Ids(p), s.indexes, idx))
    requires Agrees(req.steps, Straight(p, idx, w).made, w)
    ensures var (t, out) := Exec(p, s, req, par, bodies);
      Follows(Ids(p), s, t, out, idx, Straight(p, idx, w), req, bodies)
    decreases p, 0
  {
    var Parallel(branches, join) := p;
    assert IdsOfAll(branches) <= Ids(p);
    SplitParallel(p, req.steps, idx, w);
    ExecAllFollows(branches, s, req, bodies, NOTHING, idx, w);
    var (s1, g) := ExecAll(branches, s, req, bodies, NOTHING);
    if !(JoinUp(g).Value? && g.results in join) {
      ParallelStops(p, s, req, par, bodies, idx, w);
      return;
    }
    var all := StraightAll(branches, idx, w);
    ExecAllMoves(branches, s, req, bodies, NOTHING);
    assert g.results == all.results;
    var q := join[g.results];
    assert Ids(q) <= Ids(p);
    if !s.cancelled {
      forall x | x in Ids(q) ensures SameNext(s1.indexes, all.indexes, x) {
        assert SameNext(s.indexes, idx, x);
      }
    }
    ExecFollows(q, s1, req, par, bodies, all.indexes, w);
    var (t, out) := Exec(q, s1, req, par, bodies);
    FollowsThen(Ids(p), Ids(q), s, s1, t, out, idx, all.indexes, all.made, Straight(q, all.indexes, w), req, bodies);
  }

  lemma {:induction false} ExecAllFollows(bs: seq<Prog>, s: State, req: Request, bodies: Bodies, g: Gathered,
      idx: map<string, nat>, w: World)
    requires Apart(bs) && forall b :: b in bs ==> WellScoped(b)
    requires s.cancelled || Aligned(IdsOfAll(bs), s.indexes, idx)
    requires Agrees(req.steps, StraightAll(bs, idx, w).made, w)
    ensures var (t, h) := ExecAll(bs, s, req, bodies, g);
      FollowsAll(IdsOfAll(bs), s, t, g, h, idx, StraightAll(bs, idx, w), req, bodies)
    decreases bs, 0
  {
    if bs != [] {
      var ids := IdsOfAll(bs);
      assert Ids(bs[0]) <= ids && IdsOfAll(bs[1..]) <= ids;
      AgreesBoth(Straight(bs[0], idx, w).made, StraightAll(bs[1..], Straight(bs[0], idx, w).indexes, w).made,
          req.steps, w);
      ExecFollows(bs[0], s, req, true, bodies, idx, w);
      ExecMoves(bs[0], s, req, true, bodies);
      ExecFront(bs[0], s, req, true, bodies, idx, w);
      var (s1, out) := Exec(bs[0], s, req, true, bodies);
      var first := Straight(bs[0], idx, w);
      LaterBranchesApart(bs);
      if !s1.cancelled {
        LaterBranchesAligned(bs, s.indexes, idx, s1.indexes, first.indexes);
      }
      ExecAllFollows(bs[1..], s1, req, bodies, Gather(g, out), first.indexes, w);
      ExecAllMoves(bs[1..], s1, req, bodies, Gather(g, out));
      var (t, h) := ExecAll(bs[1..], s1, req, bodies, Gather(g, out));
      FollowsAllCons(ids, Ids(bs[0]), IdsOfAll(bs[1..]), s, s1, t, out, g, h, idx, first,
                     StraightAll(bs[1..], first.indexes, w), req, bodies);
    }
  }

  lemma HeldBoth(s: State, s1: State, t: State, bodies: Bodies)
    requires s.ran <= s1.ran <= t.ran
    ensures BodiesHeld(s, t, bodies) ==> BodiesHeld(s, s1, bodies) && BodiesHeld(s1, t, bodies)
  {
    if BodiesHeld(s, t, bodies) {
      forall i | |s.ran| <= i < |s1.ran|
        ensures bodies(s1.ran[i]).Returned? && bodies(s1.ran[i]).data.Some?
      {
        assert t.ran[i] == s1.ran[i];
      }
    }
  }

  /** Getting through the first branch and then the others. */
  lemma ThroughBoth(s: State, s1: State, t: State, out: Ctl<StepResult>, g: Gathered, h: Gathered,
                    idx: map<string, nat>, first: Trace, rest: BranchRuns, steps: map<string, Json>)
    requires out.Value? && first.out == Returns(out.value) && Covered(first.made, steps)
    requires KeepsAligned(s.indexes, idx, s1.indexes, first.indexes)
    requires GotThrough(s1, t, Gather(g, out), h, first.indexes, rest, steps)
    ensures GotThrough(s, t, g, h, idx, Before(first, rest), steps)
  {
    CoveredBoth(first.made, rest.made, steps);
    assert g.results + [out.value] + rest.results == g.results + ([out.value] + rest.results);
  }

  lemma FollowsAllCons(ids: iset<string>, idsFirst: iset<string>, idsRest: iset<string>,
                       s: State, s1: State, t: State, out: Ctl<StepResult>, g: Gathered, h: Gathered,
                       idx: map<string, nat>, first: Trace, rest: BranchRuns, req: Request, bodies: Bodies)
    requires idsFirst <= ids && idsRest <= ids
    requires Follows(idsFirst, s, s1, out, idx, first, req, bodies) && (out.Value? ==> Quiet(s, s1))
    requires FollowsAll(idsRest, s1, t, Gather(g, out), h, first.indexes, rest, req, bodies)
    requires s.ran <= s1.ran <= t.ran
    requires (Gather(g, out).planned ==> h.planned) && (Gather(g, out).panic.Some? ==> h.panic.Some?)
    ensures FollowsAll(ids, s, t, g, h, idx, Before(first, rest), req, bodies)
  {
    CoveredBoth(first.made, rest.made, req.steps);
    NewInBoth(s, s1, t, first.made, rest.made, bodies);
    HeldBoth(s, s1, t, bodies);
    if !h.planned && h.panic.None? {
      ThroughBoth(s, s1, t, out, g, h, idx, first, rest, req.steps);
    }
  }

  /** Whatever the first branch did, the later ones still get the positions of the straight run. */
  lemma LaterBranchesAligned(bs: seq<Prog>, a: map<string, nat>, b: map<string, nat>, a': map<string, nat>,
      b': map<string, nat>)
    requires bs != [] && Apart(bs) && Aligned(IdsOfAll(bs), a, b) && FrontKept(LateIds(bs[0]), a, b, a', b')
    ensures Aligned(IdsOfAll(bs[1..]), a', b')
  {
    forall id | id in IdsOfAll(bs[1..])
      ensures SameNext(a', b', id)
    {
      var later :| later in bs[1..] && Uses(later, id);
      var j :| 0 <= j < |bs[1..]| && bs[1..][j] == later;
      assert bs[j + 1] == later && !Late(bs[0], id);
      assert id !in LateIds(bs[0]) && id in IdsOfAll(bs);
      assert SameNext(a, b, id);
    }
  }

  lemma LaterBranchesApart(bs: seq<Prog>)
    requires bs != [] && Apart(bs)
    ensures Apart(bs[1..])
  {
    forall i, j, id | 0 <= i < j < |bs[1..]|
      ensures !(Late(bs[1..][i], id) && Uses(bs[1..][j], id))
    {
      assert bs[1..][i] == bs[i + 1] && bs[1..][j] == bs[j + 1];
    }
  }
}
