/** When branches may share step ids: positions are handed out per id across all branches. */
module SharedIds {
  import opened Json
  import opened StepKeys
  import opened Memo
  import opened Engine
  import opened Workflow
  import opened PassShape
  import opened Direct
  import opened StraightKeys

  function FinishAll(rs: seq<StepResult>): Prog { Return(if rs == [] then Null else rs[0].value, None) }

  ghost function Again(r: StepResult, id: string, ty: Ty): Prog { Once(Run, id, ty) }

  /** One branch runs `id` twice in a row, the other sleeps under the same id. */
  ghost function TwoBranches(id: string, ty: Ty): seq<Prog> {
    [Call(Run, id, ty, imap r: StepResult | true :: Again(r, id, ty)), Once(Sleep("1s"), id, ty)]
  }

  ghost function Sharing(id: string, ty: Ty): Prog {
    Parallel(TwoBranches(id, ty), imap rs: seq<StepResult> | true :: FinishAll(rs))
  }

  lemma OnceStraight(tool: Tool, id: string, ty: Ty, idx: map<string, nat>, w: World)
    requires forall tool, c, t :: w(tool, c, t).Good?
    ensures var c := CallId(id, Next(idx, id)); var d := Straight(Once(tool, id, ty), idx, w);
      d.made == [Made(tool, c, ty)] && d.indexes == idx[id := c.pos] && d.out.Returns?
  {
    var c := CallId(id, Next(idx, id));
    var r := w(tool, c, ty).result;
    var p := Once(tool, id, ty);
    assert r in p.next && p.next[r] == Finish(r);
    assert Straight(Finish(r), idx[id := c.pos], w).made == [];
  }

  /** Straight through, the sleep is the third call with this id. */
  lemma SleepIsThirdCall(id: string, ty: Ty, w: World)
    requires forall tool, c, t :: w(tool, c, t).Good?
    ensures Straight(Sharing(id, ty), map[], w).made ==
      [Made(Run, CallId(id, 0), ty), Made(Run, CallId(id, 1), ty), Made(Sleep("1s"), CallId(id, 2), ty)]
  {
    var idx0: map<string, nat> := map[];
    var idx1 := idx0[id := 0];
    var idx2 := idx1[id := 1];
    var bs := TwoBranches(id, ty);
    var r := w(Run, CallId(id, 0), ty).result;
    assert r in bs[0].next && bs[0].next[r] == Once(Run, id, ty);
    OnceStraight(Run, id, ty, idx1, w);
    var first := Straight(bs[0], idx0, w);
    assert first.made == [Made(Run, CallId(id, 0), ty)] + [Made(Run, CallId(id, 1), ty)];
    assert first.indexes == idx2 && first.out.Returns?;
    OnceStraight(Sleep("1s"), id, ty, idx2, w);
    var second := Straight(bs[1], idx2, w);
    assert bs[1..] == [bs[1]] && bs[1..][1..] == [];
    var none := StraightAll([], second.indexes, w);
    var all := StraightAll(bs, idx0, w);
    var later := StraightAll(bs[1..], first.indexes, w);
    assert later == Before(second, none);
    assert all == Before(first, later);
    assert all.results in Sharing(id, ty).join;
    assert Straight(FinishAll(all.results), all.indexes, w).made == [];
  }

  /** In the first pass it is the second call. */
  lemma FirstPassOps(id: string, ty: Ty, bodies: Bodies)
    ensures Pass(Sharing(id, ty), Request(map[], None, false), bodies).ops
      == [PlanOp(CallId(id, 0)), ToolOp(Sleep("1s"), CallId(id, 1))]
  {
    var req := Request(map[], None, false);
    var bs := TwoBranches(id, ty);
    var (s1, out1) := Exec(bs[0], FRESH, req, true, bodies);
    assert s1.ops == [PlanOp(CallId(id, 0))] && s1.indexes == map[id := 0] && !s1.cancelled && out1.Hijack?;
    var (s2, out2) := Exec(bs[1], s1, req, true, bodies);
    assert s2.ops == [PlanOp(CallId(id, 0)), ToolOp(Sleep("1s"), CallId(id, 1))] && out2.Hijack?;
    var g := Gather(Gather(NOTHING, out1), out2);
    assert bs[1..] == [bs[1]] && bs[1..][1..] == [];
    assert ExecAll([], s2, req, bodies, g) == (s2, g);
    assert ExecAll(bs, FRESH, req, bodies, NOTHING) == (s2, g);
  }

  /** So its op asks for a sleep under the key of the other branch's second step, a call no straight run makes. */
  lemma FirstPassAsksForTheWrongCall(id: string, ty: Ty, w: World, bodies: Bodies)
    requires forall tool, c, t :: w(tool, c, t).Good?
    ensures var op := ToolOp(Sleep("1s"), CallId(id, 1));
      op in Pass(Sharing(id, ty), Request(map[], None, false), bodies).ops
      && !OpIn(op, Straight(Sharing(id, ty), map[], w).made, bodies)
  {
    FirstPassOps(id, ty, bodies);
    SleepIsThirdCall(id, ty, w);
    KeyCollisions(CallId(id, 1), CallId(id, 2));
    var op := ToolOp(Sleep("1s"), CallId(id, 1));
    assert Pass(Sharing(id, ty), Request(map[], None, false), bodies).ops[1] == op;
  }

  /* ---------- exactly when a later branch keeps its positions ---------- */

  /** The world in which every call settles to what the executor stores for it. */
  function Told(store: string -> Json): World {
    (tool: Tool, c: CallId, ty: Ty) => Decode(tool, store(Key(c)), ty, c.id)
  }

  predicate From(memo: map<string, Json>, store: string -> Json) {
    forall k :: k in memo ==> memo[k] == store(k)
  }

  function MadeIds(made: seq<Made>): set<string> {
    set i | 0 <= i < |made| :: made[i].c.id
  }

  /** The ids a run calls after its first call. */
  function LateMade(made: seq<Made>): set<string> {
    if made == [] then {} else MadeIds(made[1..])
  }

  ghost predicate MadeAligned(a: map<string, nat>, b: map<string, nat>, made: seq<Made>) {
    forall id :: id in MadeIds(made) ==> SameNext(a, b, id)
  }

  lemma MadeIdsCons(m: Made, rest: seq<Made>)
    ensures MadeIds([m] + rest) == {m.c.id} + MadeIds(rest) && LateMade([m] + rest) == MadeIds(rest)
  {
    assert ([m] + rest)[1..] == rest;
    forall id | id in MadeIds(rest) ensures id in MadeIds([m] + rest) {
      var i :| 0 <= i < |rest| && rest[i].c.id == id;
      assert ([m] + rest)[i + 1].c.id == id;
    }
    assert ([m] + rest)[0] == m;
  }

  ghost predicate CountsOnly(ids: set<string>, a: map<string, nat>, b: map<string, nat>) {
    forall id :: id !in ids ==> SameNext(a, b, id)
  }

  /** A sequential run counts exactly the ids it calls. */
  lemma {:induction false} StraightCounts(q: Prog, idx: map<string, nat>, w: World)
    requires Sequential(q)
    ensures CountsOnly(MadeIds(Straight(q, idx, w).made), idx, Straight(q, idx, w).indexes)
    decreases q
  {
    match q
    case Call(tool, id, ty, next) =>
      var c := CallId(id, Next(idx, id));
      var decoded := w(tool, c, ty);
      if decoded.Good? && decoded.result in next {
        var rest := Straight(next[decoded.result], idx[id := c.pos], w);
        StraightCounts(next[decoded.result], idx[id := c.pos], w);
        MadeIdsCons(Made(tool, c, ty), rest.made);
        var d := Straight(q, idx, w);
        assert d == rest.(made := [Made(tool, c, ty)] + rest.made);
        forall x | x !in MadeIds(d.made)
          ensures SameNext(idx, d.indexes, x)
        {
          assert x !in MadeIds(rest.made) && x != id;
          assert SameNext(idx[id := c.pos], rest.indexes, x);
        }
      } else {
        assert Straight(q, idx, w).made == [Made(tool, c, ty)] + [];
        MadeIdsCons(Made(tool, c, ty), []);
      }
    case _ =>
  }

  /** One call of an untargeted pass over a branch, beside the straight run. */
  lemma BranchStep(q: Prog, s: State, idx: map<string, nat>, memo: map<string, Json>, store: string -> Json,
                   planFirst: bool, bodies: Bodies, d: Trace)
    requires q.Call? && Sequential(q) && !s.cancelled && From(memo, store)
    requires d == Straight(q, idx, Told(store)) && MadeAligned(s.indexes, idx, d.made)
    ensures var c := CallId(q.id, Next(idx, q.id));
      var (s1, out) := CallTool(s, Request(memo, None, planFirst), true, q.tool, q.id, q.ty, bodies);
      && d.made != [] && d.made[0] == Made(q.tool, c, q.ty) && LateMade(d.made) == MadeIds(d.made[1..])
      && !s1.cancelled && s1.indexes == s.indexes[q.id := c.pos] && NewCallsIn(s, s1, [d.made[0]])
      && CountsOnly(MadeIds(d.made[1..]), idx[q.id := c.pos], d.indexes)
      && (out.Value? && out.value in q.next ==>
            && d.made[1..] == Straight(q.next[out.value], idx[q.id := c.pos], Told(store)).made
            && d.indexes == Straight(q.next[out.value], idx[q.id := c.pos], Told(store)).indexes
            && MadeAligned(s1.indexes, idx[q.id := c.pos], d.made[1..]))
  {
    var c := CallId(q.id, Next(idx, q.id));
    var m := Made(q.tool, c, q.ty);
    assert d.made == [m] + d.made[1..];
    MadeIdsCons(m, d.made[1..]);
    assert SameNext(s.indexes, idx, q.id);
    CallToolTraced(s, Request(memo, None, planFirst), true, q.tool, q.id, q.ty, bodies);
    CallToolMoves(s, Request(memo, None, planFirst), true, q.tool, q.id, q.ty, bodies);
    var decoded := Told(store)(q.tool, c, q.ty);
    if decoded.Good? && decoded.result in q.next {
      StraightCounts(q.next[decoded.result], idx[q.id := c.pos], Told(store));
    }
  }

  /** The calls of such a pass are calls of the straight run. */
  lemma {:induction false} BranchMakes(q: Prog, s: State, idx: map<string, nat>, memo: map<string, Json>,
      store: string -> Json, planFirst: bool, bodies: Bodies)
    requires Sequential(q) && !s.cancelled && From(memo, store)
    requires MadeAligned(s.indexes, idx, Straight(q, idx, Told(store)).made)
    ensures NewCallsIn(s, Exec(q, s, Request(memo, None, planFirst), true, bodies).0,
        Straight(q, idx, Told(store)).made)
    decreases q
  {
    if q.Call? {
      var d := Straight(q, idx, Told(store));
      var (s1, out) := CallTool(s, Request(memo, None, planFirst), true, q.tool, q.id, q.ty, bodies);
      BranchStep(q, s, idx, memo, store, planFirst, bodies, d);
      if out.Value? && out.value in q.next {
        BranchMakes(q.next[out.value], s1, idx[q.id := Next(idx, q.id)], memo, store, planFirst, bodies);
      }
      assert d.made == [d.made[0]] + d.made[1..];
      BranchCalls(s, s1, Exec(q, s, Request(memo, None, planFirst), true, bodies).0, d.made[0], d.made[1..]);
    }
  }

  ghost predicate LateKept(late: set<string>, a: map<string, nat>, b: map<string, nat>, a': map<string, nat>,
      b': map<string, nat>)
  {
    forall id :: id !in late && SameNext(a, b, id) ==> SameNext(a', b', id)
  }

  /** Whatever the memo, such a pass counts all ids but the late ones as the straight run does. */
  lemma {:induction false} BranchKeeps(q: Prog, s: State, idx: map<string, nat>, memo: map<string, Json>,
      store: string -> Json, planFirst: bool, bodies: Bodies)
    requires Sequential(q) && !s.cancelled && From(memo, store)
    requires MadeAligned(s.indexes, idx, Straight(q, idx, Told(store)).made)
    ensures var d := Straight(q, idx, Told(store));
      var t := Exec(q, s, Request(memo, None, planFirst), true, bodies).0;
      !t.cancelled && LateKept(LateMade(d.made), s.indexes, idx, t.indexes, d.indexes)
    decreases q
  {
    if q.Call? {
      var d := Straight(q, idx, Told(store));
      var idx1 := idx[q.id := Next(idx, q.id)];
      var (s1, out) := CallTool(s, Request(memo, None, planFirst), true, q.tool, q.id, q.ty, bodies);
      BranchStep(q, s, idx, memo, store, planFirst, bodies, d);
      if out.Value? && out.value in q.next {
        BranchKeeps(q.next[out.value], s1, idx1, memo, store, planFirst, bodies);
        LateIsMade(d.made[1..]);
      } else {
        StoppedKeeps(MadeIds(d.made[1..]), s.indexes, idx, s1.indexes, idx1, d.indexes);
      }
      assert forall x :: SameNext(s.indexes, idx, x) ==> SameNext(s1.indexes, idx1, x);
    }
  }

  lemma LateIsMade(made: seq<Made>)
    ensures LateMade(made) <= MadeIds(made)
  {
    if made != [] {
      assert made == [made[0]] + made[1..];
      MadeIdsCons(made[0], made[1..]);
    }
  }

  lemma StoppedKeeps(late: set<string>, a: map<string, nat>, b: map<string, nat>, a1: map<string, nat>,
      b1: map<string, nat>, b': map<string, nat>)
    requires CountsOnly(late, b1, b') && forall id :: SameNext(a, b, id) ==> SameNext(a1, b1, id)
    ensures LateKept(late, a, b, a1, b')
  {
    forall id | id !in late && SameNext(a, b, id)
      ensures SameNext(a1, b', id)
    {
      assert SameNext(a1, b1, id) && SameNext(b1, b', id);
    }
  }

  lemma BranchCalls(s: State, s1: State, t: State, m: Made, rest: seq<Made>)
    requires NewCallsIn(s, s1, [m]) && NewCallsIn(s1, t, rest)
    ensures NewCallsIn(s, t, [m] + rest)
  {
    assert forall x :: x == m || x in rest ==> x in [m] + rest;
    forall i | |s.calls| <= i < |t.calls|
      ensures CallIn(t.calls[i], [m] + rest)
    {
      if i < |s1.calls| { assert CallIn(s1.calls[i], [m]); } else { assert CallIn(t.calls[i], rest); }
    }
  }

  /** The call is numbered between the two states. */
  ghost predicate Numbers(s: State, t: State, c: CallId) {
    exists i :: |s.calls| <= i < |t.calls| && t.calls[i] == c
  }

  /** A pass begins with the first call of its program. */
  lemma FirstIsNumbered(q: Prog, s: State, req: Request, bodies: Bodies)
    requires q.Call? && !s.cancelled
    ensures Numbers(s, Exec(q, s, req, true, bodies).0, CallId(q.id, Next(s.indexes, q.id)))
  {
    CallToolAdds(s, req, true, q.tool, q.id, q.ty, bodies);
    var (s1, out) := CallTool(s, req, true, q.tool, q.id, q.ty, bodies);
    var t := Exec(q, s, req, true, bodies).0;
    if out.Value? && out.value in q.next { ExecMoves(q.next[out.value], s1, req, true, bodies); }
    assert s1.calls <= t.calls && t.calls[|s.calls|] == CallId(q.id, Next(s.indexes, q.id));
  }

  /** A pass whose memo holds the first `k` calls makes the next one, at the position it finds. */
  lemma {:induction false} BranchReaches(q: Prog, s: State, idx: map<string, nat>, memo: map<string, Json>,
      store: string -> Json, planFirst: bool, bodies: Bodies, made: seq<Made>, k: nat)
    requires Sequential(q) && !s.cancelled && From(memo, store) && made == Straight(q, idx, Told(store)).made
    requires k < |made| && MadeAligned(s.indexes, idx, made[..k]) && made[k].c.id !in MadeIds(made[..k])
    requires forall j :: 0 <= j < k ==> Key(made[j].c) in memo
    ensures Numbers(s, Exec(q, s, Request(memo, None, planFirst), true, bodies).0,
                    CallId(made[k].c.id, Next(s.indexes, made[k].c.id)))
    decreases q
  {
    var req := Request(memo, None, planFirst);
    if k == 0 {
      FirstIsNumbered(q, s, req, bodies);
    } else {
      var r := NextReached(q, s, idx, memo, store, planFirst, bodies, made, k);
      var (s1, c) := NewOp(s, q.id);
      var x := made[k].c.id;
      BranchReaches(q.next[r], s1, idx[q.id := c.pos], memo, store, planFirst, bodies, made[1..], k - 1);
      var t := Exec(q, s, req, true, bodies).0;
      var i :| |s1.calls| <= i < |t.calls| && t.calls[i] == CallId(x, Next(s1.indexes, x));
    }
  }

  /** One memoized call on the way there. */
  lemma NextReached(q: Prog, s: State, idx: map<string, nat>, memo: map<string, Json>, store: string -> Json,
                    planFirst: bool, bodies: Bodies, made: seq<Made>, k: nat) returns (r: StepResult)
    requires q.Call? && Sequential(q) && !s.cancelled && From(memo, store) && made == Straight(q, idx, Told(store)).made
    requires 0 < k < |made| && MadeAligned(s.indexes, idx, made[..k]) && made[k].c.id !in MadeIds(made[..k])
    requires forall j :: 0 <= j < k ==> Key(made[j].c) in memo
    ensures var (s1, c) := NewOp(s, q.id);
      var req := Request(memo, None, planFirst);
      && r in q.next && Exec(q, s, req, true, bodies) == Exec(q.next[r], s1, req, true, bodies)
      && made[1..] == Straight(q.next[r], idx[q.id := c.pos], Told(store)).made && q.id != made[k].c.id
      && MadeAligned(s1.indexes, idx[q.id := c.pos], made[1..][..k - 1]) && made[k].c.id !in MadeIds(made[1..][..k - 1])
  {
    var c := CallId(q.id, Next(idx, q.id));
    var m := Made(q.tool, c, q.ty);
    assert made == [m] + made[1..];
    assert made[..k] == [m] + made[1..][..k - 1];
    MadeIdsCons(m, made[1..][..k - 1]);
    assert made[0] == m && Key(c) in memo && SameNext(s.indexes, idx, q.id);
    r := Told(store)(q.tool, c, q.ty).result;
  }

  /** Over this memo, every call the later branch makes is one of its calls in the straight run. */
  ghost predicate LaterKept(a: Prog, b: Prog, s: State, memo: map<string, Json>, store: string -> Json,
      planFirst: bool, bodies: Bodies)
  {
    var req := Request(memo, None, planFirst);
    var s1 := Exec(a, s, req, true, bodies).0;
    var first := Straight(a, s.indexes, Told(store));
    NewCallsIn(s1, Exec(b, s1, req, true, bodies).0, Straight(b, first.indexes, Told(store)).made)
  }

  /** The memo that holds just these calls. */
  function MemoOf(made: seq<Made>, store: string -> Json): map<string, Json> {
    map k | k in KeysOf(made) :: store(k)
  }

  /** All calls of two branches run one after the other have keys of their own. */
  lemma TwoBranchKeys(a: Prog, b: Prog, idx: map<string, nat>, w: World)
    requires CollisionFree(Ids(a) + Ids(b))
    ensures var first := Straight(a, idx, w); var second := Straight(b, first.indexes, w);
      && WellMade(idx, first.indexes, first.made) && WellMade(first.indexes, second.indexes, second.made)
      && forall i, j :: 0 <= i < |first.made| && 0 <= j < |second.made| ==>
           Key(first.made[i].c) != Key(second.made[j].c)
  {
    var first := Straight(a, idx, w);
    var second := Straight(b, first.indexes, w);
    StraightWellMade(a, idx, w);
    StraightWellMade(b, first.indexes, w);
    MadeIdsUsed(a, idx, w);
    MadeIdsUsed(b, first.indexes, w);
    forall i, j | 0 <= i < |first.made| && 0 <= j < |second.made|
      ensures Key(first.made[i].c) != Key(second.made[j].c)
    {
      var m, m' := first.made[i], second.made[j];
      assert m in first.made && m' in second.made;
      assert Between(idx, first.indexes, m.c) && Between(first.indexes, second.indexes, m'.c);
      assert m.c != m'.c && m.c.id in Ids(a) + Ids(b) && m'.c.id in Ids(a) + Ids(b);
    }
  }

  lemma LaterKeptIf(a: Prog, b: Prog, s: State, memo: map<string, Json>, store: string -> Json, planFirst: bool,
      bodies: Bodies)
    requires Sequential(a) && Sequential(b) && !s.cancelled && From(memo, store)
    requires var first := Straight(a, s.indexes, Told(store));
      LateMade(first.made) !! MadeIds(Straight(b, first.indexes, Told(store)).made)
    ensures LaterKept(a, b, s, memo, store, planFirst, bodies)
  {
    var first := Straight(a, s.indexes, Told(store));
    BranchKeeps(a, s, s.indexes, memo, store, planFirst, bodies);
    var s1 := Exec(a, s, Request(memo, None, planFirst), true, bodies).0;
    forall id | id in MadeIds(Straight(b, first.indexes, Told(store)).made)
      ensures SameNext(s1.indexes, first.indexes, id)
    {
      assert id !in LateMade(first.made) && SameNext(s.indexes, s.indexes, id);
    }
    BranchMakes(b, s1, first.indexes, memo, store, planFirst, bodies);
  }

  /** The first shared call: its place in the later branch's run. */
  lemma FirstShared(late: set<string>, made: seq<Made>) returns (k: nat)
    requires !(late !! MadeIds(made))
    ensures k < |made| && made[k].c.id in late && forall j :: 0 <= j < k ==> made[j].c.id !in late
  {
    var id :| id in late && id in MadeIds(made);
    var n :| 0 <= n < |made| && made[n].c.id == id;
    k := 0;
    while made[k].c.id !in late
      invariant k <= n && forall j :: 0 <= j < k ==> made[j].c.id !in late
      decreases n - k
    {
      k := k + 1;
    }
  }

  /** Before its first memoized call nothing of a branch is counted but that call. */
  lemma StopsAtFirst(a: Prog, s: State, memo: map<string, Json>, planFirst: bool, bodies: Bodies)
    requires a.Call? && !s.cancelled && Key(CallId(a.id, Next(s.indexes, a.id))) !in memo
    ensures var t := Exec(a, s, Request(memo, None, planFirst), true, bodies).0;
      t.indexes == s.indexes[a.id := Next(s.indexes, a.id)] && !t.cancelled
  {
  }

  /** With a late call of the first branch under this id, the straight run is ahead of a pass that stops at
      the first call. */
  lemma StraightIsAhead(idx: map<string, nat>, idx1: map<string, nat>, made: seq<Made>, x: string)
    requires made != [] && WellMade(idx, idx1, made) && x in LateMade(made)
    requires made[0].c.pos == Next(idx, made[0].c.id)
    ensures Next(idx[made[0].c.id := made[0].c.pos], x) < Next(idx1, x)
  {
    var i :| 0 <= i < |made[1..]| && made[1..][i].c.id == x;
    assert made[i + 1].c.id == x;
    assert Between(idx, idx1, made[i + 1].c) && Between(idx, idx1, made[0].c) && made[0].c != made[i + 1].c;
  }

  /** A call at a position before all of the branch's own. */
  lemma StrayCall(s1: State, t: State, made: seq<Made>, c: CallId, idx: map<string, nat>, idx1: map<string, nat>)
    requires Numbers(s1, t, c) && WellMade(idx, idx1, made) && c.pos < Next(idx, c.id)
    ensures !NewCallsIn(s1, t, made)
  {
    forall m | m in made
      ensures m.c != c
    {
      var j :| 0 <= j < |made| && made[j] == m;
      assert Between(idx, idx1, made[j].c);
    }
    assert !CallIn(c, made);
  }

  /** The later branch loses its positions over the memo of its own calls before the first shared one. */
  lemma LostAt(a: Prog, b: Prog, s: State, store: string -> Json, planFirst: bool, bodies: Bodies, first: Trace,
      second: Trace, k: nat, memo: map<string, Json>)
    requires Sequential(a) && a.Call? && Sequential(b) && !s.cancelled
    requires first == Straight(a, s.indexes, Told(store)) && second == Straight(b, first.indexes, Told(store))
    requires WellMade(s.indexes, first.indexes, first.made) && WellMade(first.indexes, second.indexes, second.made)
    requires k < |second.made| && second.made[k].c.id in LateMade(first.made)
    requires forall j :: 0 <= j < k ==> second.made[j].c.id !in LateMade(first.made)
    requires From(memo, store) && Key(first.made[0].c) !in memo
    requires forall j :: 0 <= j < k ==> Key(second.made[j].c) in memo
    ensures !LaterKept(a, b, s, memo, store, planFirst, bodies)
  {
    StopsAtFirst(a, s, memo, planFirst, bodies);
    var s1 := Exec(a, s, Request(memo, None, planFirst), true, bodies).0;
    var x := second.made[k].c.id;
    StraightIsAhead(s.indexes, first.indexes, first.made, x);
    AlignedBefore(a, s, s1, first, second.made, k, Told(store));
    BranchReaches(b, s1, first.indexes, memo, store, planFirst, bodies, second.made, k);
    StrayCall(s1, Exec(b, s1, Request(memo, None, planFirst), true, bodies).0, second.made,
              CallId(x, Next(s1.indexes, x)), first.indexes, second.indexes);
  }

  /** A memo over which the later branch calls at a position that is not one of its own. */
  lemma LaterLost(a: Prog, b: Prog, s: State, store: string -> Json, planFirst: bool, bodies: Bodies, first: Trace,
      second: Trace)
      returns (memo: map<string, Json>)
    requires Sequential(a) && Sequential(b) && !s.cancelled && CollisionFree(Ids(a) + Ids(b))
    requires first == Straight(a, s.indexes, Told(store)) && second == Straight(b, first.indexes, Told(store))
    requires !(LateMade(first.made) !! MadeIds(second.made))
    ensures From(memo, store) && !LaterKept(a, b, s, memo, store, planFirst, bodies)
  {
    TwoBranchKeys(a, b, s.indexes, Told(store));
    var k := FirstShared(LateMade(first.made), second.made);
    memo := MemoOf(second.made[..k], store);
    FirstKeyIsOpen(first.made, second.made, k, store);
    MemoHoldsFirst(second.made, k, store);
    LostAt(a, b, s, store, planFirst, bodies, first, second, k, memo);
  }

  lemma FirstKeyIsOpen(first: seq<Made>, made: seq<Made>, k: nat, store: string -> Json)
    requires first != [] && k <= |made|
    requires forall i, j :: 0 <= i < |first| && 0 <= j < |made| ==> Key(first[i].c) != Key(made[j].c)
    ensures Key(first[0].c) !in MemoOf(made[..k], store)
  {
  }

  lemma MemoHoldsFirst(made: seq<Made>, k: nat, store: string -> Json)
    requires k <= |made|
    ensures From(MemoOf(made[..k], store), store)
    ensures forall j :: 0 <= j < k ==> Key(made[j].c) in MemoOf(made[..k], store)
  {
    forall j | 0 <= j < k ensures Key(made[j].c) in KeysOf(made[..k]) {
      assert made[..k][j] == made[j];
    }
  }

  /** Up to the first shared call the later branch finds the positions of the straight run. */
  lemma AlignedBefore(a: Prog, s: State, s1: State, first: Trace, made: seq<Made>, k: nat, w: World)
    requires Sequential(a) && a.Call? && first == Straight(a, s.indexes, w)
    requires s1.indexes == s.indexes[a.id := Next(s.indexes, a.id)]
    requires k < |made| && made[k].c.id in LateMade(first.made)
    requires forall j :: 0 <= j < k ==> made[j].c.id !in LateMade(first.made)
    ensures MadeAligned(s1.indexes, first.indexes, made[..k]) && made[k].c.id !in MadeIds(made[..k])
  {
    StraightCounts(a, s.indexes, w);
    var m := first.made[0];
    var c := CallId(a.id, Next(s.indexes, a.id));
    assert first.made == [m] + first.made[1..] && m == Made(a.tool, c, a.ty);
    MadeIdsCons(m, first.made[1..]);
    var decoded := w(a.tool, c, a.ty);
    var q := a.next[decoded.result];
    StraightCounts(q, s.indexes[a.id := c.pos], w);
    assert first.made[1..] == Straight(q, s.indexes[a.id := c.pos], w).made;
    forall id | id in MadeIds(made[..k])
      ensures SameNext(s1.indexes, first.indexes, id) && id !in LateMade(first.made)
    {
      var j :| 0 <= j < |made[..k]| && made[..k][j].c.id == id;
      assert made[j].c.id == id;
    }
  }

  /** For two sequential branches with collision-free ids: whatever part of the outcomes the memo holds, the
      later branch makes only calls it makes in the straight run, at their positions, exactly when it calls
      no id that the earlier one calls after its first call. */
  lemma LaterKeptIff(a: Prog, b: Prog, s: State, store: string -> Json, planFirst: bool, bodies: Bodies)
    requires Sequential(a) && Sequential(b) && !s.cancelled && CollisionFree(Ids(a) + Ids(b))
    ensures (forall memo :: From(memo, store) ==> LaterKept(a, b, s, memo, store, planFirst, bodies))
      <==> (var first := Straight(a, s.indexes, Told(store));
            LateMade(first.made) !! MadeIds(Straight(b, first.indexes, Told(store)).made))
  {
    var first := Straight(a, s.indexes, Told(store));
    if LateMade(first.made) !! MadeIds(Straight(b, first.indexes, Told(store)).made) {
      forall memo | From(memo, store)
        ensures LaterKept(a, b, s, memo, store, planFirst, bodies)
      {
        LaterKeptIf(a, b, s, memo, store, planFirst, bodies);
      }
    } else {
      var memo := LaterLost(a, b, s, store, planFirst, bodies, first, Straight(b, first.indexes, Told(store)));
    }
  }
}
