/** How the branches of a `Parallel` end and what it makes of them, and how a pass numbers its calls. */
module BranchEndings {
  import opened Json
  import opened Errors
  import opened StepKeys
  import opened Memo
  import opened Engine
  import opened Workflow
  import opened PassShape

  /** How each branch ends, one after the other. */
  function Endings(bs: seq<Prog>, s: State, req: Request, bodies: Bodies): (outs: seq<Ctl<StepResult>>)
    ensures |outs| == |bs|
  {
    if bs == [] then []
    else
      var (s1, out) := Exec(bs[0], s, req, true, bodies);
      [out] + Endings(bs[1..], s1, req, bodies)
  }

  /** Branch `i` panics, and no later one does. */
  predicate LastPanic(outs: seq<Ctl<StepResult>>, i: nat) {
    i < |outs| && outs[i].Panic? && forall j :: i < j < |outs| ==> !outs[j].Panic?
  }

  predicate Calm(outs: seq<Ctl<StepResult>>) {
    forall i :: 0 <= i < |outs| ==> !outs[i].Panic?
  }

  predicate AllReturned(outs: seq<Ctl<StepResult>>) {
    forall i :: 0 <= i < |outs| ==> outs[i].Value?
  }

  /** The branches returned these results, in order. */
  predicate ReturnedAll(outs: seq<Ctl<StepResult>>, rs: seq<StepResult>) {
    |rs| == |outs| && forall i :: 0 <= i < |outs| ==> outs[i] == Value(rs[i])
  }

  /** What is gathered from these endings on top of `g`. */
  ghost predicate GatheredFrom(g: Gathered, outs: seq<Ctl<StepResult>>, h: Gathered) {
    && (h.planned <==> g.planned || Hijack in outs)
    && (Calm(outs) ==> h.panic == g.panic)
    && (forall i: nat :: LastPanic(outs, i) ==> h.panic == Some(outs[i].msg))
    && (AllReturned(outs) ==>
          && |h.results| == |g.results| + |outs| && g.results <= h.results
          && forall i :: 0 <= i < |outs| ==> h.results[|g.results| + i] == outs[i].value)
  }

  lemma GatheredCons(g: Gathered, out: Ctl<StepResult>, outs: seq<Ctl<StepResult>>, h: Gathered)
    requires GatheredFrom(Gather(g, out), outs, h)
    ensures GatheredFrom(g, [out] + outs, h)
  {
    var all := [out] + outs;
    assert forall i :: 0 <= i < |outs| ==> all[i + 1] == outs[i];
    assert all[0] == out;
    assert Calm(all) ==> Calm(outs) && !out.Panic?;
    forall i: nat | LastPanic(all, i)
      ensures h.panic == Some(all[i].msg)
    {
      if i > 0 {
        assert LastPanic(outs, i - 1);
      } else {
        assert forall j :: 0 <= j < |outs| ==> outs[j] == all[j + 1];
        assert Calm(outs);
      }
    }
    if AllReturned(all) {
      assert out == all[0] && AllReturned(outs);
      forall i | 0 <= i < |all|
        ensures h.results[|g.results| + i] == all[i].value
      {
        assert i > 0 ==> h.results[|g.results| + 1 + (i - 1)] == outs[i - 1].value;
      }
    }
  }

  lemma {:induction false} ExecAllGathers(bs: seq<Prog>, s: State, req: Request, bodies: Bodies, g: Gathered)
    ensures GatheredFrom(g, Endings(bs, s, req, bodies), ExecAll(bs, s, req, bodies, g).1)
    decreases bs
  {
    if bs != [] {
      var (s1, out) := Exec(bs[0], s, req, true, bodies);
      ExecAllGathers(bs[1..], s1, req, bodies, Gather(g, out));
      GatheredCons(g, out, Endings(bs[1..], s1, req, bodies), ExecAll(bs[1..], s1, req, bodies, Gather(g, out)).1);
    }
  }

  /** Whatever the branches do: if one panics, so does the whole, with the message of the last that did; else if
      one was hijacked, so is the whole; else what follows gets their results in order. */
  lemma ParallelEndsLike(p: Prog, s: State, req: Request, par: bool, bodies: Bodies)
    requires p.Parallel?
    ensures var outs := Endings(p.branches, s, req, bodies);
      var s1 := ExecAll(p.branches, s, req, bodies, NOTHING).0;
      && (forall i: nat :: LastPanic(outs, i) ==> Exec(p, s, req, par, bodies) == (s1, Panic(outs[i].msg)))
      && (Calm(outs) && Hijack in outs ==> Exec(p, s, req, par, bodies) == (s1, Hijack))
      && (forall rs :: ReturnedAll(outs, rs) && rs in p.join ==>
            Exec(p, s, req, par, bodies) == Exec(p.join[rs], s1, req, par, bodies))
  {
    ExecAllGathers(p.branches, s, req, bodies, NOTHING);
    var outs := Endings(p.branches, s, req, bodies);
    var (s1, g) := ExecAll(p.branches, s, req, bodies, NOTHING);
    forall rs | ReturnedAll(outs, rs)
      ensures rs == g.results && JoinUp(g) == Value(rs)
    {
      assert AllReturned(outs) && Calm(outs) && Hijack !in outs;
      assert forall i :: 0 <= i < |outs| ==> g.results[|NOTHING.results| + i] == outs[i].value;
    }
  }

  /* ---------- what reaches the code, and what leaves it ---------- */

  /** A call with a memo goes on with what the memo says, and leaves nothing but its number behind; a memo that
      cannot be read ends the pass with its error. */
  lemma MemoReachesCode(p: Prog, s: State, req: Request, par: bool, bodies: Bodies)
    requires p.Call? && !s.cancelled
    requires Key(CallId(p.id, Next(s.indexes, p.id))) in req.steps
    ensures var c := CallId(p.id, Next(s.indexes, p.id));
      var s1 := s.(indexes := s.indexes[p.id := c.pos], calls := s.calls + [c]);
      match Decode(p.tool, req.steps[Key(c)], p.ty, p.id)
      case Good(r) => r in p.next ==> Exec(p, s, req, par, bodies) == Exec(p.next[r], s1, req, par, bodies)
      case Bad(e) => Exec(p, s, req, par, bodies) == (s1.(err := Some(e)), Hijack)
  {
  }

  /** What the workflow function returns, its error included, is what the invocation hands on; so is its panic. */
  lemma ReturnIsHandedOn(value: Json, err: Option<GoErr>, msg: string, req: Request, bodies: Bodies)
    ensures Pass(Return(value, err), req, bodies) == Invocation(Some(value), [], err)
    ensures Pass(Crash(msg), req, bodies) == Invocation(None, [], Some(Text("function panicked: " + msg)))
  {
  }

  /* ---------- positions ---------- */

  /** The calls with this id. */
  function Count(calls: seq<CallId>, id: string): nat {
    if calls == [] then 0 else Count(calls[..|calls| - 1], id) + (if calls[|calls| - 1].id == id then 1 else 0)
  }

  /** Every call's position is the number of calls with its id before it. */
  ghost predicate Counted(s: State) {
    && (forall id :: Next(s.indexes, id) == Count(s.calls, id))
    && forall i :: 0 <= i < |s.calls| ==> s.calls[i].pos == Count(s.calls[..i], s.calls[i].id)
  }

  lemma CallToolCounts(s: State, req: Request, par: bool, tool: Tool, id: string, ty: Ty, bodies: Bodies)
    requires Counted(s)
    ensures Counted(CallTool(s, req, par, tool, id, ty, bodies).0)
  {
    if !s.cancelled {
      CallToolAdds(s, req, par, tool, id, ty, bodies);
      var t := CallTool(s, req, par, tool, id, ty, bodies).0;
      assert t.calls[..|s.calls|] == s.calls;
      forall i | 0 <= i < |t.calls|
        ensures t.calls[i].pos == Count(t.calls[..i], t.calls[i].id)
      {
        if i < |s.calls| { assert t.calls[..i] == s.calls[..i]; }
      }
    }
  }

  /** Every pass numbers the calls of each id 0, 1, 2 and so on. */
  lemma {:induction false} ExecCounts(p: Prog, s: State, req: Request, par: bool, bodies: Bodies)
    requires Counted(s)
    ensures Counted(Exec(p, s, req, par, bodies).0)
    decreases p, 0
  {
    match p
    case Return(_, _) =>
    case Crash(_) =>
    case Call(tool, id, ty, next) =>
      CallToolCounts(s, req, par, tool, id, ty, bodies);
      var (s1, out) := CallTool(s, req, par, tool, id, ty, bodies);
      if out.Value? && out.value in next {
        ExecCounts(next[out.value], s1, req, par, bodies);
      }
    case Parallel(branches, join) =>
      ExecAllCounts(branches, s, req, bodies, NOTHING);
      var (s1, g) := ExecAll(branches, s, req, bodies, NOTHING);
      if JoinUp(g).Value? && g.results in join {
        ExecCounts(join[g.results], s1, req, par, bodies);
      }
  }

  lemma {:induction false} ExecAllCounts(bs: seq<Prog>, s: State, req: Request, bodies: Bodies, g: Gathered)
    requires Counted(s)
    ensures Counted(ExecAll(bs, s, req, bodies, g).0)
    decreases bs, 0
  {
    if bs != [] {
      ExecCounts(bs[0], s, req, true, bodies);
      var (s1, out) := Exec(bs[0], s, req, true, bodies);
      ExecAllCounts(bs[1..], s1, req, bodies, Gather(g, out));
    }
  }
}
