/** Over any schedule, what a memo entry holds is the outcome of the call it belongs to. */
module MemoOutcomes {
  import opened Json
  import opened Errors
  import opened StepKeys
  import opened Engine
  import opened Workflow
  import opened Direct
  import opened BodyOutcomes
  import opened Schedules

  /** Event `e` produced `value` as an outcome of call `m`: a body of that call returned or failed with
      it, or the executor settled the op that asks for exactly that call. */
  predicate Produced(e: Event, m: Made, value: Json) {
    match e
    case Serve(_, _, bodies, raw) =>
      m.tool.Run? &&
      (match bodies(m.c)
       case Returned(Some(data)) => value == StoreAs(raw, data)
       case Failed(err, data) => value == WrapError("Step failed", Message(err), data)
       case _ => false)
    case Resolve(op, given) => !m.tool.Run? && op == ToolOp(m.tool, m.c) && value == given
  }

  ghost predicate Happened(es: seq<Event>, m: Made, value: Json) {
    exists i :: 0 <= i < |es| && Produced(es[i], m, value)
  }

  /** The op was reported for this call while some request was served. */
  ghost predicate Reported(es: seq<Event>, op: Opcode, m: Made) {
    exists i :: 0 <= i < |es| && es[i].Serve? && OpFor(op, m, es[i].bodies)
  }

  ghost predicate OpTraced(es: seq<Event>, made: seq<Made>, op: Opcode) {
    exists m :: m in made && Reported(es, op, m)
  }

  ghost predicate MemoTraced(es: seq<Event>, made: seq<Made>, key: string, value: Json) {
    exists m :: m in made && Key(m.c) == key && Happened(es, m, value)
  }

  ghost predicate Traced(es: seq<Event>, made: seq<Made>, l: Ledger) {
    && (forall op :: op in l.reported ==> OpTraced(es, made, op))
    && (forall k :: k in l.memo ==> MemoTraced(es, made, k, l.memo[k]))
  }

  lemma LaterToo(es: seq<Event>, e: Event, made: seq<Made>, l: Ledger)
    requires Traced(es, made, l)
    ensures Traced(es + [e], made, l)
  {
    forall op | op in l.reported
      ensures OpTraced(es + [e], made, op)
    {
      var m :| m in made && Reported(es, op, m);
      var i :| 0 <= i < |es| && es[i].Serve? && OpFor(op, m, es[i].bodies);
      assert (es + [e])[i] == es[i];
    }
    forall k | k in l.memo
      ensures MemoTraced(es + [e], made, k, l.memo[k])
    {
      var m :| m in made && Key(m.c) == k && Happened(es, m, l.memo[k]);
      var i :| 0 <= i < |es| && Produced(es[i], m, l.memo[k]);
      assert (es + [e])[i] == es[i];
    }
  }

  /** Every op of a pass over a truthful memo is an op for a call of the straight run. */
  lemma PassOps(p: Prog, req: Request, bodies: Bodies, w: World)
    requires WellScoped(p) && Agrees(req.steps, Straight(p, map[], w).made, w)
    ensures forall op :: op in Pass(p, req, bodies).ops ==> OpIn(op, Straight(p, map[], w).made, bodies)
  {
    var (t, out) := Exec(p, FRESH, req, false, bodies);
    assert NewOpsIn(FRESH, t, Straight(p, map[], w).made, bodies) by {
      ExecFollows(p, FRESH, req, false, bodies, map[], w);
    }
    forall op | op in t.ops
      ensures OpIn(op, Straight(p, map[], w).made, bodies)
    {
      var i :| 0 <= i < |t.ops| && t.ops[i] == op;
    }
  }

  lemma ServedOp(es: seq<Event>, made: seq<Made>, op: Opcode, bodies: Bodies, i: nat)
    requires i < |es| && es[i].Serve? && es[i].bodies == bodies && OpIn(op, made, bodies)
    ensures OpTraced(es, made, op)
    ensures op.kind.StepRun? && op.data.Some? ==> MemoTraced(es, made, op.id, StoreAs(es[i].raw, op.data.value))
  {
    var m :| m in made && OpFor(op, m, bodies);
    assert Reported(es, op, m);
    if op.kind.StepRun? && op.data.Some? {
      assert Produced(es[i], m, StoreAs(es[i].raw, op.data.value));
      assert Happened(es, m, StoreAs(es[i].raw, op.data.value));
    }
  }

  lemma ServedOps(es: seq<Event>, made: seq<Made>, l: Ledger, ops: seq<Opcode>, bodies: Bodies, i: nat)
    requires Traced(es, made, l) && i < |es| && es[i].Serve? && es[i].bodies == bodies
    requires forall op :: op in ops ==> OpIn(op, made, bodies)
    ensures Traced(es, made, l.(reported := l.reported + set op | op in ops))
    ensures EndsWithRun(ops) ==>
      MemoTraced(es, made, ops[|ops| - 1].id, StoreAs(es[i].raw, ops[|ops| - 1].data.value))
  {
    forall op | op in ops
      ensures OpTraced(es, made, op)
    {
      ServedOp(es, made, op, bodies, i);
    }
    if EndsWithRun(ops) {
      ServedOp(es, made, ops[|ops| - 1], bodies, i);
    }
  }

  lemma ServeTraced(p: Prog, es: seq<Event>, made: seq<Made>, l: Ledger, e: Event, i: nat)
    requires Traced(es, made, l) && e.Serve? && i < |es| && es[i] == e
    requires (forall op ::
        op in Pass(p, Request(l.memo, e.target, e.planFirst), e.bodies).ops ==> OpIn(op, made, e.bodies))
    ensures Traced(es, made, Step(p, l, e))
  {
    ServedOps(es, made, l, Pass(p, Request(l.memo, e.target, e.planFirst), e.bodies).ops, e.bodies, i);
  }

  lemma SettledOpTraced(es: seq<Event>, made: seq<Made>, op: Opcode, value: Json, i: nat)
    requires OpTraced(es, made, op) && MaySettle(op, value) && i < |es| && es[i] == Resolve(op, value)
    ensures MemoTraced(es, made, op.id, value)
  {
    var m :| m in made && Reported(es, op, m);
    var j :| 0 <= j < |es| && es[j].Serve? && OpFor(op, m, es[j].bodies);
    assert Produced(if m.tool.Run? then es[j] else es[i], m, value);
    assert Happened(es, m, value);
  }

  lemma ResolveTraced(p: Prog, es: seq<Event>, made: seq<Made>, l: Ledger, e: Event, i: nat)
    requires Traced(es, made, l) && e.Resolve? && i < |es| && es[i] == e
    ensures Traced(es, made, Step(p, l, e))
  {
    if e.op in l.reported && e.op.id !in l.memo && MaySettle(e.op, e.value) {
      SettledOpTraced(es, made, e.op, e.value, i);
    }
  }

  /** Whatever the schedule, every memo entry belongs to a call the straight run makes with that id and
      position, and holds what a body of that call produced in some served request, or what the executor
      gave for the op asking for that very call (same tool, same arguments). */
  lemma {:induction false} MemoHoldsOutcomes(p: Prog, es: seq<Event>, w: World)
    requires WellScoped(p) && Knows(w, After(p, es).memo)
    ensures Traced(es, Straight(p, map[], w).made, After(p, es))
    decreases |es|
  {
    if es != [] {
      var past := es[..|es| - 1];
      var l := After(p, past);
      var e := es[|es| - 1];
      var made := Straight(p, map[], w).made;
      StepGrows(p, l, e);
      KnowsLess(w, l.memo, After(p, es).memo, made);
      MemoHoldsOutcomes(p, past, w);
      assert past + [e] == es;
      LaterToo(past, e, made, l);
      if e.Serve? {
        PassOps(p, Request(l.memo, e.target, e.planFirst), e.bodies, w);
        ServeTraced(p, es, made, l, e, |es| - 1);
      } else {
        ResolveTraced(p, es, made, l, e, |es| - 1);
      }
    }
  }
}
