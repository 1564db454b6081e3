/** What every single pass keeps, for any program, memo, target and step bodies. */
module PassShape {
  import opened Json
  import opened StepKeys
  import opened Memo
  import opened Engine
  import opened Workflow

  /** The program may call a tool with this id under some results. */
  ghost predicate Uses(p: Prog, id: string)
    decreases p
  {
    match p
    case Return(_, _) => false
    case Crash(_) => false
    case Call(_, own, _, next) => own == id || exists r :: r in next && Uses(next[r], id)
    case Parallel(branches, join) =>
      (exists b :: b in branches && Uses(b, id)) || exists rs :: rs in join && Uses(join[rs], id)
  }

  ghost function Ids(p: Prog): iset<string> {
    iset id | Uses(p, id)
  }

  predicate BodyOp(op: Opcode) {
    op.kind.StepRun? || op.kind.StepFailed?
  }

  /** How a pass may change the manager's state. A cancelled context freezes it; every new op is for a
      step without memo; a step body runs at most once, cancels, and its op is the last one; the body
      run is the targeted one if there is a target. */
  ghost predicate Moves(s: State, t: State, req: Request) {
    && (s.cancelled ==> t == s)
    && s.ops <= t.ops && s.calls <= t.calls && s.opCalls <= t.opCalls && s.ran <= t.ran
    && (s.err.Some? ==> t.err.Some?)
    && |t.ran| == |s.ran| + (if t.cancelled && !s.cancelled then 1 else 0)
    && (forall i :: |s.ops| <= i < |t.ops| ==> t.ops[i].id !in req.steps)
    && (forall i :: |s.ops| <= i < |t.ops| && BodyOp(t.ops[i]) ==> i == |t.ops| - 1 && t.cancelled)
    && (forall i :: |s.ran| <= i < |t.ran| ==>
          Key(t.ran[i]) !in req.steps && (req.target.Some? ==> Key(t.ran[i]) == req.target.value))
  }

  /** Nothing but numbering happened. */
  predicate Quiet(s: State, t: State) {
    t.ops == s.ops && t.opCalls == s.opCalls && t.err == s.err && t.cancelled == s.cancelled && t.ran == s.ran
  }

  /** An untargeted hijack leaves a trace: a cancelled context, an op, or an error. */
  predicate Explained(s: State, t: State) {
    s.cancelled || |t.ops| > |s.ops| || t.err.Some?
  }

  /** What holds of the way a pass ends. */
  ghost predicate Ends<T>(s: State, t: State, out: Ctl<T>, req: Request, par: bool) {
    && (out.Value? ==> Quiet(s, t))
    && (out.Hijack? && req.target.None? ==> Explained(s, t))
    && ((par || req.planFirst) && req.target.None? ==> t.ran == s.ran && t.cancelled == s.cancelled)
    && (out.Panic? && req.target.None? ==> forall i :: |s.ops| <= i < |t.ops| ==> !BodyOp(t.ops[i]))
  }

  lemma MovesTransitive(s: State, t: State, u: State, req: Request)
    requires Moves(s, t, req) && Moves(t, u, req)
    ensures Moves(s, u, req)
  {
    forall i | |s.ops| <= i < |u.ops|
      ensures u.ops[i].id !in req.steps && (BodyOp(u.ops[i]) ==> i == |u.ops| - 1 && u.cancelled)
    {
      if i < |t.ops| { assert u.ops[i] == t.ops[i]; }
    }
    forall i | |s.ran| <= i < |u.ran|
      ensures Key(u.ran[i]) !in req.steps && (req.target.Some? ==> Key(u.ran[i]) == req.target.value)
    {
      if i < |t.ran| { assert u.ran[i] == t.ran[i]; }
    }
  }

  lemma RunBodyMoves(s: State, req: Request, par: bool, c: CallId, body: BodyResult)
    requires !s.cancelled && Key(c) !in req.steps
    requires if req.target.Some? then req.target.value == Key(c) else !par && !req.planFirst
    ensures var (t, out) := RunBody(s, c, body);
      Moves(s, t, req) && Ends(s, t, out, req, par)
  {
  }

  lemma RunFreshMoves(s: State, req: Request, par: bool, c: CallId, bodies: Bodies)
    requires !s.cancelled && Key(c) !in req.steps
    ensures var (t, out) := RunFresh(s, req, par, c, bodies);
      Moves(s, t, req) && Ends(s, t, out, req, par)
  {
    if req.target.Some? && req.target.value != Key(c) {
    } else if req.target.None? && (par || req.planFirst) {
    } else {
      RunBodyMoves(s, req, par, c, bodies(c));
    }
  }

  lemma CallToolMoves(s: State, req: Request, par: bool, tool: Tool, id: string, ty: Ty, bodies: Bodies)
    ensures var (t, out) := CallTool(s, req, par, tool, id, ty, bodies);
      Moves(s, t, req) && Ends(s, t, out, req, par)
  {
    if !s.cancelled {
      var (s1, c) := NewOp(s, id);
      assert Moves(s, s1, req) && Quiet(s, s1);
      var (t, out) := CallTool(s, req, par, tool, id, ty, bodies);
      if Key(c) !in req.steps && tool.Run? {
        RunFreshMoves(s1, req, par, c, bodies);
      } else {
        assert Moves(s1, t, req) && Ends(s1, t, out, req, par);
      }
      MovesTransitive(s, s1, t, req);
    }
  }

  /** Every pass over every program moves the state that way. */
  lemma {:induction false} ExecMoves(p: Prog, s: State, req: Request, par: bool, bodies: Bodies)
    ensures var (t, out) := Exec(p, s, req, par, bodies);
      Moves(s, t, req) && Ends(s, t, out, req, par)
    decreases p, 0
  {
    match p
    case Return(_, _) =>
    case Crash(_) =>
    case Call(tool, id, ty, next) =>
      CallToolMoves(s, req, par, tool, id, ty, bodies);
      var (s1, out) := CallTool(s, req, par, tool, id, ty, bodies);
      if out.Value? && out.value in next {
        ExecMoves(next[out.value], s1, req, par, bodies);
        MovesTransitive(s, s1, Exec(next[out.value], s1, req, par, bodies).0, req);
      }
    case Parallel(branches, join) =>
      ExecAllMoves(branches, s, req, bodies, NOTHING);
      var (s1, g) := ExecAll(branches, s, req, bodies, NOTHING);
      if JoinUp(g).Value? && g.results in join {
        ExecMoves(join[g.results], s1, req, par, bodies);
        MovesTransitive(s, s1, Exec(join[g.results], s1, req, par, bodies).0, req);
      }
  }

  lemma {:induction false} ExecAllMoves(bs: seq<Prog>, s: State, req: Request, bodies: Bodies, g: Gathered)
    ensures var (t, h) := ExecAll(bs, s, req, bodies, g);
      && Moves(s, t, req)
      && (g.planned ==> h.planned) && (g.panic.Some? ==> h.panic.Some?)
      && (!h.planned && h.panic.None? ==> Quiet(s, t))
      && (req.target.None? ==> t.ran == s.ran && t.cancelled == s.cancelled)
      && (req.target.None? && h.planned && !g.planned ==> Explained(s, t))
    decreases bs, 0
  {
    if bs != [] {
      ExecMoves(bs[0], s, req, true, bodies);
      var (s1, out) := Exec(bs[0], s, req, true, bodies);
      ExecAllMoves(bs[1..], s1, req, bodies, Gather(g, out));
      MovesTransitive(s, s1, ExecAll(bs[1..], s1, req, bodies, Gather(g, out)).0, req);
    }
  }

  /** One pass runs at most one step body; a StepRun or StepFailed op is unique and last; with a target
      only the target's body runs; an untargeted plan-first pass runs none. */
  lemma AtMostOneBody(p: Prog, req: Request, bodies: Bodies)
    ensures var (t, _) := Exec(p, FRESH, req, false, bodies);
      && |t.ran| <= 1
      && (forall i :: 0 <= i < |t.ops| && BodyOp(t.ops[i]) ==> i == |t.ops| - 1 && |t.ran| == 1)
      && (|t.ran| == 1 ==> Key(t.ran[0]) !in req.steps)
      && (|t.ran| == 1 && req.target.Some? ==> Key(t.ran[0]) == req.target.value)
      && (req.target.None? && req.planFirst ==> t.ran == [])
  {
    ExecMoves(p, FRESH, req, false, bodies);
  }

  /** An untargeted pass never runs a body inside `Parallel`, whatever the executor's flags. */
  lemma NoBodyInsideParallel(branches: seq<Prog>, s: State, req: Request, bodies: Bodies)
    requires req.target.None?
    ensures ExecAll(branches, s, req, bodies, NOTHING).0.ran == s.ran
  {
    ExecAllMoves(branches, s, req, bodies, NOTHING);
  }

  /** Every op of a pass is for a step the request has no memo of. */
  lemma OpsAreUnmemoized(p: Prog, req: Request, bodies: Bodies)
    ensures forall op :: op in Pass(p, req, bodies).ops ==> op.id !in req.steps
  {
    ExecMoves(p, FRESH, req, false, bodies);
  }

  /** Bookkeeping: ops carry the keys of distinct calls already numbered. */
  ghost predicate Numbered(s: State) {
    && |s.opCalls| == |s.ops|
    && (forall i :: 0 <= i < |s.ops| ==> s.ops[i].id == Key(s.opCalls[i]))
    && (forall i, j :: 0 <= i < j < |s.opCalls| ==> s.opCalls[i] != s.opCalls[j])
    && (forall c :: c in s.opCalls ==> c in s.calls)
    && (forall c :: c in s.calls ==> c.pos < Next(s.indexes, c.id))
  }

  /** What one call of a tool adds: one numbered call, and at most one op with that call's key. */
  lemma RunFreshAdds(s: State, req: Request, par: bool, c: CallId, bodies: Bodies)
    ensures var t := RunFresh(s, req, par, c, bodies).0;
      && t.calls == s.calls && t.indexes == s.indexes
      && ((t.ops == s.ops && t.opCalls == s.opCalls)
          || exists op: Opcode :: op.id == Key(c) && t.ops == s.ops + [op] && t.opCalls == s.opCalls + [c])
  {
    var t := RunFresh(s, req, par, c, bodies).0;
    if t.ops != s.ops {
      assert t.ops[|s.ops|].id == Key(c) && t.ops == s.ops + [t.ops[|s.ops|]];
    }
  }

  lemma CallToolAdds(s: State, req: Request, par: bool, tool: Tool, id: string, ty: Ty, bodies: Bodies)
    requires !s.cancelled
    ensures var t := CallTool(s, req, par, tool, id, ty, bodies).0;
      var (s1, c) := NewOp(s, id);
      && t.calls == s1.calls && t.indexes == s1.indexes
      && ((t.ops == s.ops && t.opCalls == s.opCalls)
          || exists op: Opcode :: op.id == Key(c) && t.ops == s.ops + [op] && t.opCalls == s.opCalls + [c])
  {
    var (s1, c) := NewOp(s, id);
    if tool.Run? {
      RunFreshAdds(s1, req, par, c, bodies);
    } else {
      assert ToolOp(tool, c).id == Key(c);
    }
  }

  lemma NumberedAfter(s: State, t: State, c: CallId)
    requires Numbered(s) && c.pos == Next(s.indexes, c.id)
    requires t.calls == s.calls + [c] && t.indexes == s.indexes[c.id := c.pos]
    requires (t.ops == s.ops && t.opCalls == s.opCalls)
      || exists op: Opcode :: op.id == Key(c) && t.ops == s.ops + [op] && t.opCalls == s.opCalls + [c]
    ensures Numbered(t)
  {
    assert c !in s.calls;
    forall x | x in t.calls
      ensures x.pos < Next(t.indexes, x.id)
    {
      assert x in s.calls || x == c;
    }
  }

  lemma CallToolNumbered(s: State, req: Request, par: bool, tool: Tool, id: string, ty: Ty, bodies: Bodies)
    requires Numbered(s)
    ensures Numbered(CallTool(s, req, par, tool, id, ty, bodies).0)
  {
    if !s.cancelled {
      CallToolAdds(s, req, par, tool, id, ty, bodies);
      NumberedAfter(s, CallTool(s, req, par, tool, id, ty, bodies).0, NewOp(s, id).1);
    }
  }

  lemma CallToolCalls(s: State, req: Request, par: bool, tool: Tool, id: string, ty: Ty, bodies: Bodies,
      ids: iset<string>)
    requires id in ids && forall c :: c in s.calls ==> c.id in ids
    ensures forall c :: c in CallTool(s, req, par, tool, id, ty, bodies).0.calls ==> c.id in ids
  {
    if !s.cancelled {
      CallToolAdds(s, req, par, tool, id, ty, bodies);
    }
  }

  lemma {:induction false} ExecNumbered(p: Prog, s: State, req: Request, par: bool, bodies: Bodies, ids: iset<string>)
    requires Numbered(s) && Ids(p) <= ids && forall c :: c in s.calls ==> c.id in ids
    ensures var t := Exec(p, s, req, par, bodies).0;
      Numbered(t) && forall c :: c in t.calls ==> c.id in ids
    decreases p, 0
  {
    match p
    case Return(_, _) =>
    case Crash(_) =>
    case Call(tool, id, ty, next) =>
      assert Uses(p, id);
      CallToolNumbered(s, req, par, tool, id, ty, bodies);
      CallToolCalls(s, req, par, tool, id, ty, bodies, ids);
      var (s1, out) := CallTool(s, req, par, tool, id, ty, bodies);
      if out.Value? && out.value in next {
        assert forall x :: Uses(next[out.value], x) ==> Uses(p, x);
        ExecNumbered(next[out.value], s1, req, par, bodies, ids);
      }
    case Parallel(branches, join) =>
      assert forall b, x :: b in branches && Uses(b, x) ==> Uses(p, x);
      ExecAllNumbered(branches, s, req, bodies, NOTHING, ids);
      var (s1, g) := ExecAll(branches, s, req, bodies, NOTHING);
      if JoinUp(g).Value? && g.results in join {
        assert forall x :: Uses(join[g.results], x) ==> Uses(p, x);
        ExecNumbered(join[g.results], s1, req, par, bodies, ids);
      }
  }

  lemma {:induction false} ExecAllNumbered(bs: seq<Prog>, s: State, req: Request, bodies: Bodies, g: Gathered,
      ids: iset<string>)
    requires Numbered(s) && forall c :: c in s.calls ==> c.id in ids
    requires forall b :: b in bs ==> Ids(b) <= ids
    ensures var t := ExecAll(bs, s, req, bodies, g).0;
      Numbered(t) && forall c :: c in t.calls ==> c.id in ids
    decreases bs, 0
  {
    if bs != [] {
      ExecNumbered(bs[0], s, req, true, bodies, ids);
      var (s1, out) := Exec(bs[0], s, req, true, bodies);
      ExecAllNumbered(bs[1..], s1, req, bodies, Gather(g, out), ids);
    }
  }

  /** With collision-free ids the ops of one pass have pairwise distinct IDs, each the key of a call
      the pass made. */
  lemma OpIdsDistinct(p: Prog, req: Request, bodies: Bodies)
    requires CollisionFree(Ids(p))
    ensures var ops := Pass(p, req, bodies).ops;
      forall i, j :: 0 <= i < j < |ops| ==> ops[i].id != ops[j].id
  {
    ExecNumbered(p, FRESH, req, false, bodies, Ids(p));
    var t := Exec(p, FRESH, req, false, bodies).0;
    forall i, j | 0 <= i < j < |t.ops|
      ensures t.ops[i].id != t.ops[j].id
    {
      assert t.opCalls[i] in t.opCalls && t.opCalls[j] in t.opCalls;
    }
  }
}
