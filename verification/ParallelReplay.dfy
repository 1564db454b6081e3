/** A workflow with parallel branches, driven op by op in any order, ends with the straight run's answer. */
module ParallelReplay {
  import opened Json
  import opened StepKeys
  import opened Engine
  import opened Workflow
  import opened PassShape
  import opened Direct
  import opened Response
  import opened Executor
  import opened StraightKeys
  import opened TargetedRequests
  import opened Settlement

  /** What one round of the executor comes to, and the bodies it ran. */
  datatype Round = Round(choice: Choice, ran: seq<CallId>)

  /** One round: an untargeted request; then one of the reported ops, whichever `pick` says, is settled,
      a planned body by a request that targets it. */
  function Choose(p: Prog, env: Outcomes, planFirst: bool, pick: seq<Opcode> -> nat, memo: map<string, Json>): Round {
    Act(Served(p, env, Request(memo, None, planFirst)), key => Served(p, env, Request(memo, Some(key), false)), env,
        pick)
  }

  function Act(first: (Invocation, seq<CallId>), aimed: string -> (Invocation, seq<CallId>), env: Outcomes,
      pick: seq<Opcode> -> nat): Round
  {
    var (inv, ran) := first;
    var reply := Classify(inv);
    if !reply.status.NotCompleted? then Round(Ends(reply), ran)
    else if inv.ops == [] then Round(Stuck, ran)
    else
      var op := inv.ops[pick(inv.ops) % |inv.ops|];
      if op.kind.StepPlanned? then Round(Targeted(aimed(op.id).0, op.id, env), ran + aimed(op.id).1)
      else Round(SettleOp(op, env), ran)
  }

  /** The reply that ended a drive, the number of memo entries then, and all bodies run on the way. */
  datatype Driven = Driven(reply: Reply, settled: nat, ran: seq<CallId>)

  /** Rounds until a reply that is not ops. */
  function DriveAll(round: map<string, Json> -> Round, memo: map<string, Json>, fuel: nat): Option<Driven>
    decreases fuel
  {
    match round(memo).choice
    case Ends(reply) => Some(Driven(reply, |memo|, round(memo).ran))
    case Settles(key, value) =>
      if fuel == 0 then None else RanFirst(round(memo).ran, DriveAll(round, memo[key := value], fuel - 1))
    case Stuck => None
  }

  function RanFirst(ran: seq<CallId>, rest: Option<Driven>): Option<Driven> {
    if rest.None? then None else Some(rest.value.(ran := ran + rest.value.ran))
  }

  /* ---------- rounds ---------- */

  /** A round on an unfinished run: one open call settled with its own outcome, and its body run, if it has one. */
  ghost predicate SettlesOne(round: Round, made: seq<Made>, env: Outcomes, memo: map<string, Json>) {
    exists m :: SettlesCall(round, made, env, memo, m)
  }

  ghost predicate SettlesCall(round: Round, made: seq<Made>, env: Outcomes, memo: map<string, Json>, m: Made) {
    && m in made && CanSettle(m, env) && Key(m.c) !in memo
    && round.choice == Settles(Key(m.c), MemoFor(env, m.tool, m.c))
    && round.ran == if m.tool.Run? then [m.c] else []
  }

  predicate EndsErrored(round: Round) {
    round.choice.Ends? && round.choice.reply.status.Errored?
  }

  /** The executor asks for a body that fails only if no waiting op is listed before its plan. */
  ghost predicate Careful(pick: seq<Opcode> -> nat, env: Outcomes) {
    forall ops: seq<Opcode>, c: CallId ::
      ops != [] && ops[pick(ops) % |ops|] == PlanOp(c) && env.bodies(c).Failed? ==> ClearTo(ops, pick(ops) % |ops|)
  }

  /** The one step of a round after an untargeted reply of ops. */
  lemma ActOnPick(first: (Invocation, seq<CallId>), aimed: string -> (Invocation, seq<CallId>), env: Outcomes,
      pick: seq<Opcode> -> nat, m: Made)
    requires first.0.ops != [] && Classify(first.0).status.NotCompleted?
    requires var op := first.0.ops[pick(first.0.ops) % |first.0.ops|];
      && Offers(op, m, env)
      && first.1 == (if m.tool.Run? && !op.kind.StepPlanned? then [m.c] else [])
      && (op.kind.StepPlanned? ==> aimed(Key(m.c)).1 == [m.c])
    ensures var op := first.0.ops[pick(first.0.ops) % |first.0.ops|];
      var round := Act(first, aimed, env, pick);
      && round.ran == (if m.tool.Run? then [m.c] else [])
      && (if op.kind.StepPlanned? then round.choice == Targeted(aimed(Key(m.c)).0, Key(m.c), env)
          else CanSettle(m, env) && round.choice == Settles(Key(m.c), MemoFor(env, m.tool, m.c)))
  {
    var op := first.0.ops[pick(first.0.ops) % |first.0.ops|];
    if !op.kind.StepPlanned? {
      OfferSettles(op, m, env);
    }
  }

  /** The call that the picked op is for. */
  lemma PickIsOpen(p: Prog, env: Outcomes, planFirst: bool, memo: map<string, Json>, inv: Invocation, i: nat)
      returns (m: Made)
    requires WellScoped(p) && CollisionFree(Ids(p))
    requires Agrees(memo, Straight(p, map[], Yields(env)).made, Yields(env))
    requires inv == Pass(p, Request(memo, None, planFirst), env.bodies) && i < |inv.ops|
    requires Classify(inv).status.NotCompleted?
    ensures m in Straight(p, map[], Yields(env)).made && Key(m.c) !in memo && Offers(inv.ops[i], m, env)
    ensures Served(p, env, Request(memo, None, planFirst)).1
      == if m.tool.Run? && !inv.ops[i].kind.StepPlanned? then [m.c] else []
    ensures inv.ops[i].kind.StepPlanned? ==> m.tool.Run? && inv.ops[i] == PlanOp(m.c) && PlansFirst(inv.ops, i, m.c)
  {
    OpsOffer(p, Request(memo, None, planFirst), env);
    assert inv.ops[i] in inv.ops;
    m :| m in Straight(p, map[], Yields(env)).made && Key(m.c) !in memo && Offers(inv.ops[i], m, env);
    UntargetedRan(p, Request(memo, None, planFirst), env, inv.ops[i], m);
    if inv.ops[i].kind.StepPlanned? {
      PlanIsFirst(p, Request(memo, None, planFirst), env.bodies, i, m.c);
    }
  }

  lemma CarefulPick(pick: seq<Opcode> -> nat, env: Outcomes, ops: seq<Opcode>, c: CallId)
    requires Careful(pick, env) && ops != [] && ops[pick(ops) % |ops|] == PlanOp(c)
    ensures !env.bodies(c).Failed? || ClearTo(ops, pick(ops) % |ops|)
  {
  }

  lemma RoundOfPick(round: Round, made: seq<Made>, env: Outcomes, memo: map<string, Json>, m: Made, sure: bool)
    requires m in made && Key(m.c) !in memo && round.ran == (if m.tool.Run? then [m.c] else [])
    requires (CanSettle(m, env) && round.choice == Settles(Key(m.c), MemoFor(env, m.tool, m.c)))
      || (!sure && EndsErrored(round))
    ensures SettlesOne(round, made, env, memo) || EndsErrored(round)
    ensures sure ==> SettlesOne(round, made, env, memo)
  {
    assert SettlesCall(round, made, env, memo, m) || EndsErrored(round);
  }

  /** A round that goes beyond the untargeted request settles one call or ends with an error; it settles one
      for sure if the workflow returns and the executor is careful about this pick. */
  lemma PickSettles(p: Prog, env: Outcomes, planFirst: bool, pick: seq<Opcode> -> nat, memo: map<string, Json>,
      inv: Invocation, made: seq<Made>)
    requires WellScoped(p) && CollisionFree(Ids(p))
    requires made == Straight(p, map[], Yields(env)).made && Agrees(memo, made, Yields(env))
    requires inv == Pass(p, Request(memo, None, planFirst), env.bodies) && inv.ops != []
    requires Classify(inv).status.NotCompleted?
    ensures var round := Choose(p, env, planFirst, pick, memo);
      && (SettlesOne(round, made, env, memo) || EndsErrored(round))
      && (Straight(p, map[], Yields(env)).out.Returns? && Careful(pick, env) ==> SettlesOne(round, made, env, memo))
  {
    var i := pick(inv.ops) % |inv.ops|;
    var m := PickIsOpen(p, env, planFirst, memo, inv, i);
    var sure := Straight(p, map[], Yields(env)).out.Returns? && Careful(pick, env);
    if inv.ops[i].kind.StepPlanned? {
      TargetedRequestSettlesIff(p, memo, planFirst, env, i, m);
      if sure { CarefulPick(pick, env, inv.ops, m.c); }
    }
    ActOnPick(Served(p, env, Request(memo, None, planFirst)), key => Served(p, env, Request(memo, Some(key), false)),
        env, pick, m);
    RoundOfPick(Choose(p, env, planFirst, pick, memo), made, env, memo, m, sure);
  }

  /* ---------- drives ---------- */

  /** Names the memos the quantifiers below are used for. */
  ghost predicate Seen(memo: map<string, Json>) { true }

  /** Bodies run from this memo on: those of the calls still open, once each. */
  ghost predicate OpenRuns(ran: seq<CallId>, made: seq<Made>, memo: map<string, Json>) {
    && (forall i, j :: 0 <= i < j < |ran| ==> ran[i] != ran[j])
    && (forall c :: c in ran <==> exists m :: m in made && m.tool.Run? && m.c == c && Key(c) !in memo)
  }

  lemma OpenRunsStep(ran: seq<CallId>, made: seq<Made>, memo: map<string, Json>, m: Made, value: Json)
    requires KeysApart(made) && m in made && Key(m.c) !in memo && OpenRuns(ran, made, memo[Key(m.c) := value])
    ensures OpenRuns((if m.tool.Run? then [m.c] else []) + ran, made, memo)
  {
    var all := (if m.tool.Run? then [m.c] else []) + ran;
    forall c
      ensures c in all <==> exists x :: x in made && x.tool.Run? && x.c == c && Key(c) !in memo
    {
      if x :| x in made && x.tool.Run? && x.c == c && Key(c) !in memo {
        if Key(c) == Key(m.c) { SameCall(made, x, m); }
      }
    }
  }

  /** A round of a drive that ends with this answer. */
  ghost predicate GoodRound(round: Round, made: seq<Made>, env: Outcomes, answer: Reply, memo: map<string, Json>) {
    if Covered(made, memo) then round == Round(Ends(answer), []) else SettlesOne(round, made, env, memo)
  }

  /** What a drive has come to. */
  ghost predicate Finishes(r: Option<Driven>, made: seq<Made>, answer: Reply, memo: map<string, Json>) {
    r.Some? && r.value.reply == answer && r.value.settled == |made| && OpenRuns(r.value.ran, made, memo)
  }

  /** One round that settles, before a drive that finishes. */
  lemma RoundThen(round: map<string, Json> -> Round, made: seq<Made>, env: Outcomes, answer: Reply,
      memo: map<string, Json>, fuel: nat, m: Made)
    requires KeysApart(made) && fuel > 0 && SettlesCall(round(memo), made, env, memo, m)
    requires var memo' := memo[Key(m.c) := MemoFor(env, m.tool, m.c)];
      Finishes(DriveAll(round, memo', fuel - 1), made, answer, memo')
    ensures Finishes(DriveAll(round, memo, fuel), made, answer, memo)
  {
    var value := MemoFor(env, m.tool, m.c);
    OpenRunsStep(DriveAll(round, memo[Key(m.c) := value], fuel - 1).value.ran, made, memo, m, value);
  }

  lemma DriveEnds(round: map<string, Json> -> Round, made: seq<Made>, answer: Reply, memo: map<string, Json>, fuel: nat)
    requires round(memo) == Round(Ends(answer), []) && |memo| == |made| && Covered(made, memo)
    ensures Finishes(DriveAll(round, memo, fuel), made, answer, memo)
  {
  }

  /** Rounds that settle one open call each, until all are settled. */
  lemma {:induction false} RoundsFinish(round: map<string, Json> -> Round, made: seq<Made>, env: Outcomes,
      answer: Reply, memo: map<string, Json>, fuel: nat)
    requires KeysApart(made) && Settled(memo, made, env) && fuel >= |made| - |memo|
    requires forall memo' {:trigger Seen(memo')} :: Seen(memo') && Settled(memo', made, env) ==>
      GoodRound(round(memo'), made, env, answer, memo')
    ensures Finishes(DriveAll(round, memo, fuel), made, answer, memo)
    decreases fuel
  {
    SettledCount(memo, made, env);
    assert Seen(memo);
    if Covered(made, memo) {
      DriveEnds(round, made, answer, memo, fuel);
    } else {
      var m :| SettlesCall(round(memo), made, env, memo, m);
      SettleOne(memo, made, env, m);
      RoundsFinish(round, made, env, answer, memo[Key(m.c) := MemoFor(env, m.tool, m.c)], fuel - 1);
      RoundThen(round, made, env, answer, memo, fuel, m);
    }
  }

  /** One round of a careful executor on a workflow that returns. */
  lemma RoundIsGood(p: Prog, env: Outcomes, planFirst: bool, pick: seq<Opcode> -> nat, memo: map<string, Json>)
    requires Storable(env) && WellScoped(p) && CollisionFree(Ids(p)) && Careful(pick, env)
    requires var d := Straight(p, map[], Yields(env)); d.out.Returns? && KeysApart(d.made) && Settled(memo, d.made, env)
    ensures var d := Straight(p, map[], Yields(env));
      GoodRound(Choose(p, env, planFirst, pick, memo), d.made, env, Answer(d.out), memo)
  {
    var d := Straight(p, map[], Yields(env));
    SettledAgrees(memo, d.made, env);
    PassOffers(p, memo, planFirst, env);
    if Covered(d.made, memo) {
      FinishedRan(p, Request(memo, None, planFirst), env);
    } else {
      PickSettles(p, env, planFirst, pick, memo, Pass(p, Request(memo, None, planFirst), env.bodies), d.made);
    }
  }

  /** A request that gets an answer ran nothing. */
  lemma FinishedRan(p: Prog, req: Request, env: Outcomes)
    requires Pass(p, req, env.bodies).ops == [] && Pass(p, req, env.bodies).resp.Some?
    ensures Served(p, env, req).1 == []
  {
    ExecMoves(p, FRESH, req, false, env.bodies);
  }

  /** A workflow with parallel branches and collision-free ids that returns: whatever op the executor settles
      in each round, it ends with the straight run's answer (in which a failed step gives its StepError), after
      settling each call of the straight run exactly once and running each of its bodies exactly once. The
      executor only has to be careful about bodies that fail. */
  lemma ParallelRefinesStraightRun(p: Prog, env: Outcomes, planFirst: bool, pick: seq<Opcode> -> nat, fuel: nat)
    requires Storable(env) && WellScoped(p) && CollisionFree(Ids(p)) && Careful(pick, env)
    requires var d := Straight(p, map[], Yields(env)); d.out.Returns? && fuel >= |d.made|
    ensures var d := Straight(p, map[], Yields(env));
      Finishes(DriveAll(memo => Choose(p, env, planFirst, pick, memo), map[], fuel), d.made, Answer(d.out), map[])
  {
    var d := Straight(p, map[], Yields(env));
    StraightKeysApart(p, Yields(env));
    var round := memo => Choose(p, env, planFirst, pick, memo);
    forall memo | Settled(memo, d.made, env)
      ensures GoodRound(round(memo), d.made, env, Answer(d.out), memo)
    {
      RoundIsGood(p, env, planFirst, pick, memo);
    }
    RoundsFinish(round, d.made, env, Answer(d.out), map[], fuel);
  }

  /* ---------- any run ---------- */

  /** The reply is an error, or the answer of a straight run that returns. */
  predicate Proper(reply: Reply, out: Outcome) {
    reply.status.Errored? || (out.Returns? && reply == Answer(out))
  }

  ghost predicate ProperRound(round: Round, made: seq<Made>, env: Outcomes, out: Outcome, memo: map<string, Json>) {
    (round.choice.Ends? && Proper(round.choice.reply, out)) || SettlesOne(round, made, env, memo)
  }

  lemma RoundIsProper(p: Prog, env: Outcomes, planFirst: bool, pick: seq<Opcode> -> nat, memo: map<string, Json>)
    requires Storable(env) && WellScoped(p) && CollisionFree(Ids(p))
    requires var d := Straight(p, map[], Yields(env)); KeysApart(d.made) && Settled(memo, d.made, env)
    ensures var d := Straight(p, map[], Yields(env));
      ProperRound(Choose(p, env, planFirst, pick, memo), d.made, env, d.out, memo)
  {
    var d := Straight(p, map[], Yields(env));
    var req := Request(memo, None, planFirst);
    var inv := Pass(p, req, env.bodies);
    SettledAgrees(memo, d.made, env);
    if Classify(inv).status.NotCompleted? {
      PickSettles(p, env, planFirst, pick, memo, inv, d.made);
    } else if Classify(inv).status.Done? {
      ExecFollows(p, FRESH, req, false, env.bodies, map[], Yields(env));
      ExecMoves(p, FRESH, req, false, env.bodies);
      DoneIffReturned(p, req, env.bodies);
    }
  }

  /** Rounds that settle one open call each or end properly. */
  lemma {:induction false} RoundsEnd(round: map<string, Json> -> Round, made: seq<Made>, env: Outcomes, out: Outcome,
                                     memo: map<string, Json>, fuel: nat)
    requires KeysApart(made) && Settled(memo, made, env) && fuel >= |made| - |memo|
    requires forall memo' {:trigger Seen(memo')} :: Seen(memo') && Settled(memo', made, env) ==>
      ProperRound(round(memo'), made, env, out, memo')
    ensures var r := DriveAll(round, memo, fuel); r.Some? && Proper(r.value.reply, out)
    decreases fuel
  {
    SettledCount(memo, made, env);
    assert Seen(memo);
    if SettlesOne(round(memo), made, env, memo) {
      var m :| SettlesCall(round(memo), made, env, memo, m);
      SettleOne(memo, made, env, m);
      RoundsEnd(round, made, env, out, memo[Key(m.c) := MemoFor(env, m.tool, m.c)], fuel - 1);
    }
  }

  /** Whatever the workflow, its bodies and the executor's picks, the drive ends after at most as many rounds as
      the straight run has calls, with an error or with the straight run's answer; with an error for sure if the
      straight run fails. */
  lemma ParallelEnds(p: Prog, env: Outcomes, planFirst: bool, pick: seq<Opcode> -> nat, fuel: nat)
    requires Storable(env) && WellScoped(p) && CollisionFree(Ids(p))
    requires fuel >= |Straight(p, map[], Yields(env)).made|
    ensures var d := Straight(p, map[], Yields(env));
      var r := DriveAll(memo => Choose(p, env, planFirst, pick, memo), map[], fuel);
      r.Some? && Proper(r.value.reply, d.out) && (d.out.Fails? ==> r.value.reply.status.Errored?)
  {
    var d := Straight(p, map[], Yields(env));
    StraightKeysApart(p, Yields(env));
    var round := memo => Choose(p, env, planFirst, pick, memo);
    forall memo | Settled(memo, d.made, env)
      ensures ProperRound(round(memo), d.made, env, d.out, memo)
    {
      RoundIsProper(p, env, planFirst, pick, memo);
    }
    RoundsEnd(round, d.made, env, d.out, map[], fuel);
  }
}
