/** What is open: the calls of the straight run that a memo lets every pass reach but does not hold. */
module Frontier {
  import opened Json
  import opened StepKeys
  import opened Memo
  import opened Engine
  import opened Workflow
  import opened PassShape
  import opened Direct

  function Open(p: Prog, idx: map<string, nat>, w: World, steps: map<string, Json>): seq<Made>
    decreases p, 0
  {
    match p
    case Return(_, _) => []
    case Crash(_) => []
    case Call(tool, id, ty, next) =>
      var c := CallId(id, Next(idx, id));
      if Key(c) !in steps then [Made(tool, c, ty)]
      else
        (match w(tool, c, ty)
         case Good(r) => if r in next then Open(next[r], idx[id := c.pos], w, steps) else []
         case Bad(_) => [])
    case Parallel(branches, join) =>
      var open := OpenAll(branches, idx, w, steps);
      var all := StraightAll(branches, idx, w);
      if open == [] && all.failure.None? && all.results in join then Open(join[all.results], all.indexes, w, steps)
      else open
  }

  function OpenAll(bs: seq<Prog>, idx: map<string, nat>, w: World, steps: map<string, Json>): seq<Made>
    decreases bs, 0
  {
    if bs == [] then []
    else Open(bs[0], idx, w, steps) + OpenAll(bs[1..], Straight(bs[0], idx, w).indexes, w, steps)
  }

  /** The op that asks for a call. */
  function AskFor(m: Made): Opcode {
    if m.tool.Run? then PlanOp(m.c) else ToolOp(m.tool, m.c)
  }

  function AskForAll(ms: seq<Made>): (ops: seq<Opcode>)
    ensures |ops| == |ms| && forall i :: 0 <= i < |ms| ==> ops[i] == AskFor(ms[i])
  {
    if ms == [] then [] else [AskFor(ms[0])] + AskForAll(ms[1..])
  }

  lemma AskForBoth(a: seq<Made>, b: seq<Made>)
    ensures AskForAll(a + b) == AskForAll(a) + AskForAll(b)
  {
  }

  /** From `s` to `t` an untargeted pass that runs no body asks for exactly these calls, and gets through
      exactly when there are none and the run does not fail. */
  predicate Asks(s: State, t: State, through: bool, open: seq<Made>, returns_: bool) {
    t.ops == s.ops + AskForAll(open) && (through <==> open == [] && returns_)
  }

  lemma {:induction false} ExecAsks(p: Prog, s: State, req: Request, par: bool, bodies: Bodies,
      idx: map<string, nat>, w: World)
    requires WellScoped(p) && !s.cancelled && Aligned(Ids(p), s.indexes, idx) && req.target.None?
    requires Agrees(req.steps, Straight(p, idx, w).made, w)
    ensures var (t, out) := Exec(p, s, req, par, bodies);
      t.ran == s.ran ==> Asks(s, t, out.Value?, Open(p, idx, w, req.steps), Straight(p, idx, w).out.Returns?)
    decreases p, 1
  {
    match p
    case Return(_, _) =>
    case Crash(_) =>
    case Call(_, _, _, _) => CallAsks(p, s, req, par, bodies, idx, w);
    case Parallel(_, _) => ParallelAsks(p, s, req, par, bodies, idx, w);
  }

  /** What a call asks for when the pass does not go on from it. */
  lemma CallAsksOnce(p: Prog, s: State, req: Request, par: bool, bodies: Bodies,
      idx: map<string, nat>, w: World)
    requires p.Call? && !s.cancelled && req.target.None?
    requires Next(s.indexes, p.id) == Next(idx, p.id)
    requires Agrees(req.steps, [Made(p.tool, CallId(p.id, Next(idx, p.id)), p.ty)], w)
    requires var out := CallTool(s, req, par, p.tool, p.id, p.ty, bodies).1; !(out.Value? && out.value in p.next)
    ensures var (t, out) := Exec(p, s, req, par, bodies);
      t.ran == s.ran ==> Asks(s, t, out.Value?, Open(p, idx, w, req.steps), Straight(p, idx, w).out.Returns?)
  {
    var c := CallId(p.id, Next(idx, p.id));
    var m := Made(p.tool, c, p.ty);
    assert m in [m];
    var (s1, out) := CallTool(s, req, par, p.tool, p.id, p.ty, bodies);
    if Key(c) !in req.steps {
      assert Open(p, idx, w, req.steps) == [m] && AskForAll([m]) == [AskFor(m)];
    } else {
      assert s1.ops == s.ops + AskForAll([]);
    }
  }

  lemma {:induction false} CallAsks(p: Prog, s: State, req: Request, par: bool, bodies: Bodies,
      idx: map<string, nat>, w: World)
    requires p.Call?
    requires WellScoped(p) && !s.cancelled && Aligned(Ids(p), s.indexes, idx) && req.target.None?
    requires Agrees(req.steps, Straight(p, idx, w).made, w)
    ensures var (t, out) := Exec(p, s, req, par, bodies);
      t.ran == s.ran ==> Asks(s, t, out.Value?, Open(p, idx, w, req.steps), Straight(p, idx, w).out.Returns?)
    decreases p, 0
  {
    var Call(tool, id, ty, next) := p;
    SplitCall(p, s, req.steps, idx, w);
    var (s1, out1) := CallTool(s, req, par, tool, id, ty, bodies);
    if !(out1.Value? && out1.value in next) {
      CallAsksOnce(p, s, req, par, bodies, idx, w);
      return;
    }
    CallToolFollows(s, req, par, tool, id, ty, bodies, w);
    CallToolTraced(s, req, par, tool, id, ty, bodies);
    CallToolMoves(s, req, par, tool, id, ty, bodies);
    var idx1 := idx[id := Next(idx, id)];
    var q := next[out1.value];
    assert Ids(q) <= Ids(p);
    forall x | x in Ids(q) ensures SameNext(s1.indexes, idx1, x) {
      assert SameNext(s.indexes, idx, x);
    }
    ExecAsks(q, s1, req, par, bodies, idx1, w);
  }

  /** What branches ask for when the join is not reached. */
  lemma BranchesAsk(p: Prog, s: State, req: Request, par: bool, bodies: Bodies,
      idx: map<string, nat>, w: World)
    requires p.Parallel?
    requires var (s1, g) := ExecAll(p.branches, s, req, bodies, NOTHING);
      && AsksAll(s, s1, NOTHING, g, OpenAll(p.branches, idx, w, req.steps), StraightAll(p.branches, idx, w))
      && (JoinUp(g).Value? ==> g.results == StraightAll(p.branches, idx, w).results)
      && !(JoinUp(g).Value? && g.results in p.join)
    ensures var (t, out) := Exec(p, s, req, par, bodies);
      Asks(s, t, out.Value?, Open(p, idx, w, req.steps), Straight(p, idx, w).out.Returns?)
  {
    var all := StraightAll(p.branches, idx, w);
    var open := OpenAll(p.branches, idx, w, req.steps);
    if all.failure.None? && all.results in p.join {
      assert open != [];
    }
  }

  lemma {:induction false} ParallelAsks(p: Prog, s: State, req: Request, par: bool, bodies: Bodies,
      idx: map<string, nat>, w: World)
    requires p.Parallel?
    requires WellScoped(p) && !s.cancelled && Aligned(Ids(p), s.indexes, idx) && req.target.None?
    requires Agrees(req.steps, Straight(p, idx, w).made, w)
    ensures var (t, out) := Exec(p, s, req, par, bodies);
      t.ran == s.ran ==> Asks(s, t, out.Value?, Open(p, idx, w, req.steps), Straight(p, idx, w).out.Returns?)
    decreases p, 0
  {
    var Parallel(branches, join) := p;
    assert IdsOfAll(branches) <= Ids(p);
    SplitParallel(p, req.steps, idx, w);
    ExecAllAsks(branches, s, req, bodies, NOTHING, idx, w);
    ExecAllFollows(branches, s, req, bodies, NOTHING, idx, w);
    var (s1, g) := ExecAll(branches, s, req, bodies, NOTHING);
    var all := StraightAll(branches, idx, w);
    assert JoinUp(g).Value? ==> g.results == all.results;
    if !(JoinUp(g).Value? && g.results in join) {
      BranchesAsk(p, s, req, par, bodies, idx, w);
      return;
    }
    ExecAllMoves(branches, s, req, bodies, NOTHING);
    var q := join[g.results];
    assert Ids(q) <= Ids(p);
    forall x | x in Ids(q) ensures SameNext(s1.indexes, all.indexes, x) {
      assert SameNext(s.indexes, idx, x);
    }
    ExecAsks(q, s1, req, par, bodies, all.indexes, w);
    assert Open(p, idx, w, req.steps) == Open(q, all.indexes, w, req.steps);
  }

  /** The same for branches: they all get through exactly when nothing is open and none fails. */
  predicate AsksAll(s: State, t: State, g: Gathered, h: Gathered, open: seq<Made>, d: BranchRuns) {
    && t.ops == s.ops + AskForAll(open)
    && (!h.planned && h.panic.None? <==> !g.planned && g.panic.None? && open == [] && d.failure.None?)
  }

  lemma AsksThen(s: State, s1: State, t: State, out: Ctl<StepResult>, g: Gathered, h: Gathered,
                 open: seq<Made>, rest: seq<Made>, first: Trace, d: BranchRuns)
    requires Asks(s, s1, out.Value?, open, first.out.Returns?) && AsksAll(s1, t, Gather(g, out), h, rest, d)
    ensures AsksAll(s, t, g, h, open + rest, Before(first, d))
  {
    AskForBoth(open, rest);
    OpsThen(s.ops, AskForAll(open), AskForAll(rest));
    assert open + rest == [] <==> open == [] && rest == [];
    BothThrough(out, g, first, d);
  }

  lemma OpsThen(a: seq<Opcode>, b: seq<Opcode>, c: seq<Opcode>)
    ensures a + b + c == a + (b + c)
  {
  }

  lemma BothThrough(out: Ctl<StepResult>, g: Gathered, first: Trace, d: BranchRuns)
    ensures var g1 := Gather(g, out); !g1.planned && g1.panic.None? <==> !g.planned && g.panic.None? && out.Value?
    ensures Before(first, d).failure.None? <==> first.out.Returns? && d.failure.None?
  {
  }

  lemma {:induction false} ExecAllAsks(bs: seq<Prog>, s: State, req: Request, bodies: Bodies, g: Gathered,
      idx: map<string, nat>, w: World)
    requires Apart(bs) && forall b :: b in bs ==> WellScoped(b)
    requires !s.cancelled && Aligned(IdsOfAll(bs), s.indexes, idx) && req.target.None?
    requires Agrees(req.steps, StraightAll(bs, idx, w).made, w)
    ensures var (t, h) := ExecAll(bs, s, req, bodies, g);
      AsksAll(s, t, g, h, OpenAll(bs, idx, w, req.steps), StraightAll(bs, idx, w))
    decreases bs, 0
  {
    if bs == [] {
      assert ExecAll(bs, s, req, bodies, g) == (s, g);
    } else {
      var first := Straight(bs[0], idx, w);
      var later := StraightAll(bs[1..], first.indexes, w);
      var (s1, out) := Exec(bs[0], s, req, true, bodies);
      assert Ids(bs[0]) <= IdsOfAll(bs);
      AgreesBoth(first.made, later.made, req.steps, w);
      ExecAsks(bs[0], s, req, true, bodies, idx, w);
      ExecMoves(bs[0], s, req, true, bodies);
      ExecFront(bs[0], s, req, true, bodies, idx, w);
      LaterBranchesApart(bs);
      LaterBranchesAligned(bs, s.indexes, idx, s1.indexes, first.indexes);
      ExecAllAsks(bs[1..], s1, req, bodies, Gather(g, out), first.indexes, w);
      var (t, h) := ExecAll(bs[1..], s1, req, bodies, Gather(g, out));
      AsksThen(s, s1, t, out, g, h, Open(bs[0], idx, w, req.steps), OpenAll(bs[1..], first.indexes, w, req.steps),
               first, later);
    }
  }

  /** Open calls are calls of the straight run without a memo. */
  lemma {:induction false} OpenIsMade(p: Prog, idx: map<string, nat>, w: World, steps: map<string, Json>)
    ensures forall m :: m in Open(p, idx, w, steps) ==> m in Straight(p, idx, w).made && Key(m.c) !in steps
    decreases p, 0
  {
    match p
    case Return(_, _) =>
    case Crash(_) =>
    case Call(tool, id, ty, next) =>
      var c := CallId(id, Next(idx, id));
      var decoded := w(tool, c, ty);
      if decoded.Good? && decoded.result in next {
        OpenIsMade(next[decoded.result], idx[id := c.pos], w, steps);
      }
    case Parallel(branches, join) =>
      OpenAllIsMade(branches, idx, w, steps);
      var all := StraightAll(branches, idx, w);
      if all.failure.None? && all.results in join {
        OpenIsMade(join[all.results], all.indexes, w, steps);
      }
  }

  lemma {:induction false} OpenAllIsMade(bs: seq<Prog>, idx: map<string, nat>, w: World, steps: map<string, Json>)
    ensures forall m :: m in OpenAll(bs, idx, w, steps) ==> m in StraightAll(bs, idx, w).made && Key(m.c) !in steps
    decreases bs, 0
  {
    if bs != [] {
      OpenIsMade(bs[0], idx, w, steps);
      OpenAllIsMade(bs[1..], Straight(bs[0], idx, w).indexes, w, steps);
    }
  }

  /** What is open and stays unsettled stays open as the memo grows. */
  lemma {:induction false} OpenStays(p: Prog, idx: map<string, nat>, w: World,
      a: map<string, Json>, b: map<string, Json>)
    requires a.Keys <= b.Keys
    ensures forall m :: m in Open(p, idx, w, a) && Key(m.c) !in b ==> m in Open(p, idx, w, b)
    ensures Open(p, idx, w, a) == [] ==> Open(p, idx, w, b) == []
    decreases p, 0
  {
    match p
    case Return(_, _) =>
    case Crash(_) =>
    case Call(tool, id, ty, next) =>
      var c := CallId(id, Next(idx, id));
      var decoded := w(tool, c, ty);
      if Key(c) in a && decoded.Good? && decoded.result in next {
        OpenStays(next[decoded.result], idx[id := c.pos], w, a, b);
      }
    case Parallel(branches, join) =>
      OpenAllStays(branches, idx, w, a, b);
      var all := StraightAll(branches, idx, w);
      if all.failure.None? && all.results in join {
        OpenStays(join[all.results], all.indexes, w, a, b);
      }
  }

  lemma {:induction false} OpenAllStays(bs: seq<Prog>, idx: map<string, nat>, w: World,
      a: map<string, Json>, b: map<string, Json>)
    requires a.Keys <= b.Keys
    ensures forall m :: m in OpenAll(bs, idx, w, a) && Key(m.c) !in b ==> m in OpenAll(bs, idx, w, b)
    ensures OpenAll(bs, idx, w, a) == [] ==> OpenAll(bs, idx, w, b) == []
    decreases bs, 0
  {
    if bs != [] {
      OpenStays(bs[0], idx, w, a, b);
      OpenAllStays(bs[1..], Straight(bs[0], idx, w).indexes, w, a, b);
    }
  }

  /** The reply to an untargeted request that runs no body: exactly the ops of the open calls, in order. */
  lemma ReplyIsOpen(p: Prog, steps: map<string, Json>, planFirst: bool, bodies: Bodies, w: World)
    requires WellScoped(p) && Agrees(steps, Straight(p, map[], w).made, w)
    requires planFirst || Exec(p, FRESH, Request(steps, None, false), false, bodies).0.ran == []
    ensures Pass(p, Request(steps, None, planFirst), bodies).ops == AskForAll(Open(p, map[], w, steps))
  {
    ExecAsks(p, FRESH, Request(steps, None, planFirst), false, bodies, map[], w);
    ExecMoves(p, FRESH, Request(steps, None, planFirst), false, bodies);
  }
}
