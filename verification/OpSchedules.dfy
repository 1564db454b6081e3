/** An executor that settles the ops of one reply in any order and at any time, also over an older memo,
    while others are being reported. */
module OpSchedules {
  import opened Json
  import opened StepKeys
  import opened Engine
  import opened Workflow
  import opened PassShape
  import opened Direct
  import opened Response
  import opened Executor
  import opened StraightKeys
  import opened TargetedRequests
  import opened Settlement
  import opened Frontier

  /** An op, and the memo of the request whose reply held it. */
  datatype Offer = Offer(op: Opcode, base: map<string, Json>)

  datatype Books = Books(memo: map<string, Json>, offers: set<Offer>)

  const BLANK := Books(map[], {})

  /** The executor asks for the next ops, or settles an op it was offered, with a memo that is at least as
      recent as the reply's and may be older than its own. */
  datatype Deed = Ask(planFirst: bool) | Settling(offer: Offer, view: map<string, Json>)

  /** Settling makes sense for an op that is on offer and not settled yet. */
  ghost predicate Enabled(b: Books, deed: Deed) {
    deed.Settling? ==>
      && deed.offer in b.offers && deed.offer.op.id !in b.memo
      && Within(deed.offer.base, deed.view) && Within(deed.view, b.memo)
  }

  /** What settling an op comes to: a planned body by a targeted request over the view. */
  function ChoiceFor(p: Prog, env: Outcomes, op: Opcode, view: map<string, Json>): Choice {
    if op.kind.StepPlanned? then Targeted(Pass(p, Request(view, Some(op.id), false), env.bodies), op.id, env)
    else SettleOp(op, env)
  }

  /** One deed; one that is not enabled does not happen. */
  ghost function Do(p: Prog, env: Outcomes, b: Books, deed: Deed): Books {
    if !Enabled(b, deed) then b
    else
      match deed
      case Ask(planFirst) =>
        var inv := Pass(p, Request(b.memo, None, planFirst), env.bodies);
        if Classify(inv).status.NotCompleted?
        then b.(offers := b.offers + set op | op in inv.ops :: Offer(op, b.memo))
        else b
      case Settling(offer, view) =>
        var choice := ChoiceFor(p, env, offer.op, view);
        if choice.Settles? then b.(memo := b.memo[choice.key := choice.value]) else b
  }

  ghost function BooksAfter(p: Prog, env: Outcomes, deeds: seq<Deed>): Books
    decreases |deeds|
  {
    if deeds == [] then BLANK else Do(p, env, BooksAfter(p, env, deeds[..|deeds| - 1]), deeds[|deeds| - 1])
  }

  /** The executor asks for a body that fails only if the reply over the same memo lists no waiting op before
      its plan. */
  ghost predicate CarefulDeed(p: Prog, env: Outcomes, deed: Deed) {
    deed.Settling? ==> CarefulAbout(env, deed.offer.op, Pass(p, Request(deed.view, None, true), env.bodies).ops)
  }

  ghost predicate CarefulAbout(env: Outcomes, op: Opcode, ops: seq<Opcode>) {
    forall i, c :: op == PlanOp(c) && env.bodies(c).Failed? && PlansFirst(ops, i, c) ==> ClearTo(ops, i)
  }

  /** The number of settling deeds that happened. */
  ghost function Settlings(p: Prog, env: Outcomes, deeds: seq<Deed>): nat
    decreases |deeds|
  {
    if deeds == [] then 0
    else
      var before := deeds[..|deeds| - 1];
      var last := deeds[|deeds| - 1];
      Settlings(p, env, before) + (if last.Settling? && Enabled(BooksAfter(p, env, before), last) then 1 else 0)
  }

  /** The offer is one for this call: of its open plan over the base, or of what settles it at once. */
  ghost predicate OfferFor(p: Prog, env: Outcomes, offer: Offer, m: Made) {
    && m in Straight(p, map[], Yields(env)).made && Offers(offer.op, m, env)
    && (offer.op.kind.StepPlanned? ==> m in Open(p, map[], Yields(env), offer.base))
  }

  ghost predicate GoodOffer(p: Prog, env: Outcomes, offer: Offer) {
    exists m :: OfferFor(p, env, offer, m)
  }

  /** The books hold settled calls of the run and offers of others. */
  ghost predicate Kept(p: Prog, env: Outcomes, b: Books) {
    && Settled(b.memo, Straight(p, map[], Yields(env)).made, env)
    && forall o :: o in b.offers ==> GoodOffer(p, env, o)
  }

  lemma SettledPart(a: map<string, Json>, b: map<string, Json>, made: seq<Made>, env: Outcomes)
    requires Within(a, b) && Settled(b, made, env)
    ensures Settled(a, made, env)
  {
    forall k | k in a
      ensures SettledAs(k, a[k], made, env)
    {
      assert SettledAs(k, b[k], made, env);
    }
  }

  /** A planned op is for an open call. */
  lemma PlanIsOffered(p: Prog, env: Outcomes, memo: map<string, Json>, planFirst: bool, op: Opcode, i: nat)
    requires var open := Open(p, map[], Yields(env), memo);
      && AskForAll(open) == Pass(p, Request(memo, None, planFirst), env.bodies).ops
      && i < |open| && AskForAll(open)[i] == op
    requires op.kind.StepPlanned?
    ensures GoodOffer(p, env, Offer(op, memo))
  {
    var m := Open(p, map[], Yields(env), memo)[i];
    OpenIsMade(p, map[], Yields(env), memo);
    assert m in Open(p, map[], Yields(env), memo) && op == AskFor(m);
    assert OfferFor(p, env, Offer(op, memo), m);
  }

  /** The offers of a reply are good. */
  lemma RepliesOffer(p: Prog, env: Outcomes, memo: map<string, Json>, planFirst: bool, ops: seq<Opcode>, i: nat)
    requires WellScoped(p) && Agrees(memo, Straight(p, map[], Yields(env)).made, Yields(env))
    requires ops == Pass(p, Request(memo, None, planFirst), env.bodies).ops && i < |ops|
    requires Classify(Pass(p, Request(memo, None, planFirst), env.bodies)).status.NotCompleted?
    ensures GoodOffer(p, env, Offer(ops[i], memo))
  {
    OpsOffer(p, Request(memo, None, planFirst), env);
    assert ops[i] in ops;
    var m :| m in Straight(p, map[], Yields(env)).made && Key(m.c) !in memo && Offers(ops[i], m, env);
    if ops[i].kind.StepPlanned? {
      UntargetedRan(p, Request(memo, None, planFirst), env, ops[i], m);
      ReplyIsOpen(p, memo, planFirst, env.bodies, Yields(env));
      PlanIsOffered(p, env, memo, planFirst, ops[i], i);
    } else {
      assert OfferFor(p, env, Offer(ops[i], memo), m);
    }
  }

  /** A planned call that is not settled yet is planned over every later memo too. */
  lemma StillPlanned(p: Prog, env: Outcomes, base: map<string, Json>, view: map<string, Json>, m: Made) returns (i: nat)
    requires WellScoped(p) && CollisionFree(Ids(p)) && Agrees(view, Straight(p, map[], Yields(env)).made, Yields(env))
    requires m in Open(p, map[], Yields(env), base) && m.tool.Run? && Within(base, view) && Key(m.c) !in view
    ensures PlansFirst(Pass(p, Request(view, None, true), env.bodies).ops, i, m.c)
  {
    var open := Open(p, map[], Yields(env), view);
    OpenStays(p, map[], Yields(env), base, view);
    i :| 0 <= i < |open| && open[i] == m;
    ReplyIsOpen(p, view, true, env.bodies, Yields(env));
    PlanIsFirst(p, Request(view, None, true), env.bodies, i, m.c);
  }

  /** The choice stores the call's own outcome, or nothing. */
  predicate Stores(choice: Choice, env: Outcomes, m: Made) {
    choice.Settles? ==> CanSettle(m, env) && choice == Settles(Key(m.c), MemoFor(env, m.tool, m.c))
  }

  /** A request aimed at it over such a memo stores its outcome or ends with an error; it stores it for sure if
      the workflow returns and the executor is careful. */
  lemma AimStores(p: Prog, env: Outcomes, base: map<string, Json>, view: map<string, Json>, m: Made, op: Opcode)
    requires WellScoped(p) && CollisionFree(Ids(p)) && Agrees(view, Straight(p, map[], Yields(env)).made, Yields(env))
    requires m in Straight(p, map[], Yields(env)).made && m in Open(p, map[], Yields(env), base) && m.tool.Run?
    requires Within(base, view) && Key(m.c) !in view && op == PlanOp(m.c)
    ensures Stores(ChoiceFor(p, env, op, view), env, m)
    ensures (Straight(p, map[], Yields(env)).out.Returns? && CarefulDeed(p, env, Settling(Offer(op, base), view)) ==>
        ChoiceFor(p, env, op, view).Settles?)
  {
    var i := StillPlanned(p, env, base, view, m);
    TargetedRequestSettlesIff(p, view, true, env, i, m);
  }

  lemma PlannedOffer(op: Opcode, m: Made, env: Outcomes)
    requires Offers(op, m, env) && op.kind.StepPlanned?
    ensures m.tool.Run? && op == PlanOp(m.c) && op.id == Key(m.c)
  {
  }

  lemma OtherStores(p: Prog, env: Outcomes, view: map<string, Json>, m: Made, op: Opcode)
    requires Offers(op, m, env) && !op.kind.StepPlanned?
    ensures op.id == Key(m.c) && ChoiceFor(p, env, op, view).Settles? && Stores(ChoiceFor(p, env, op, view), env, m)
  {
    OfferSettles(op, m, env);
  }

  /** An older memo agrees with the run as well. */
  lemma ViewAgrees(p: Prog, env: Outcomes, memo: map<string, Json>, view: map<string, Json>)
    requires Storable(env) && CollisionFree(Ids(p)) && Settled(memo, Straight(p, map[], Yields(env)).made, env)
    requires Within(view, memo)
    ensures Agrees(view, Straight(p, map[], Yields(env)).made, Yields(env))
  {
    StraightKeysApart(p, Yields(env));
    SettledPart(view, memo, Straight(p, map[], Yields(env)).made, env);
    SettledAgrees(view, Straight(p, map[], Yields(env)).made, env);
  }

  /** Settling an offered call stores its own outcome or nothing; it stores it for sure if the workflow returns
      and the executor is careful. */
  lemma SettlingStores(p: Prog, env: Outcomes, memo: map<string, Json>, offer: Offer, view: map<string, Json>, m: Made)
    requires Storable(env) && WellScoped(p) && CollisionFree(Ids(p))
    requires Settled(memo, Straight(p, map[], Yields(env)).made, env) && OfferFor(p, env, offer, m)
    requires Within(offer.base, view) && Within(view, memo) && offer.op.id !in memo
    ensures Key(m.c) == offer.op.id && Stores(ChoiceFor(p, env, offer.op, view), env, m)
    ensures (Straight(p, map[], Yields(env)).out.Returns? && CarefulDeed(p, env, Settling(offer, view)) ==>
        ChoiceFor(p, env, offer.op, view).Settles?)
  {
    if offer.op.kind.StepPlanned? {
      ViewAgrees(p, env, memo, view);
      PlannedOffer(offer.op, m, env);
      AimStores(p, env, offer.base, view, m, offer.op);
    } else {
      OtherStores(p, env, view, m, offer.op);
    }
  }

  /** What one deed does to the books. */
  ghost predicate Moved(p: Prog, env: Outcomes, b: Books, b': Books, settling: bool) {
    && Kept(p, env, b') && Within(b.memo, b'.memo) && b.offers <= b'.offers
    && |b.memo| <= |b'.memo| <= |b.memo| + (if settling then 1 else 0)
  }

  lemma AskKeeps(p: Prog, env: Outcomes, b: Books, planFirst: bool)
    requires Storable(env) && WellScoped(p) && CollisionFree(Ids(p)) && Kept(p, env, b)
    ensures Moved(p, env, b, Do(p, env, b, Ask(planFirst)), false)
  {
    var inv := Pass(p, Request(b.memo, None, planFirst), env.bodies);
    if Classify(inv).status.NotCompleted? {
      ViewAgrees(p, env, b.memo, b.memo);
      forall op | op in inv.ops
        ensures GoodOffer(p, env, Offer(op, b.memo))
      {
        var i :| 0 <= i < |inv.ops| && inv.ops[i] == op;
        RepliesOffer(p, env, b.memo, planFirst, inv.ops, i);
      }
    }
  }

  lemma SettlingKeeps(p: Prog, env: Outcomes, b: Books, offer: Offer, view: map<string, Json>)
    requires Storable(env) && WellScoped(p) && CollisionFree(Ids(p)) && Kept(p, env, b)
    requires Enabled(b, Settling(offer, view))
    ensures Moved(p, env, b, Do(p, env, b, Settling(offer, view)), true)
    ensures (Straight(p, map[], Yields(env)).out.Returns? && CarefulDeed(p, env, Settling(offer, view)) ==>
        |Do(p, env, b, Settling(offer, view)).memo| == |b.memo| + 1)
  {
    assert GoodOffer(p, env, offer);
    var m :| OfferFor(p, env, offer, m);
    SettlingStores(p, env, b.memo, offer, view, m);
    if ChoiceFor(p, env, offer.op, view).Settles? {
      SettleOne(b.memo, Straight(p, map[], Yields(env)).made, env, m);
    }
  }

  lemma DoKeeps(p: Prog, env: Outcomes, b: Books, deed: Deed)
    requires Storable(env) && WellScoped(p) && CollisionFree(Ids(p)) && Kept(p, env, b)
    ensures Moved(p, env, b, Do(p, env, b, deed), deed.Settling? && Enabled(b, deed))
    ensures (Straight(p, map[], Yields(env)).out.Returns? && CarefulDeed(p, env, deed) ==>
        (deed.Settling? && Enabled(b, deed) ==> |Do(p, env, b, deed).memo| == |b.memo| + 1))
  {
    if Enabled(b, deed) {
      match deed
      case Ask(planFirst) => AskKeeps(p, env, b, planFirst);
      case Settling(offer, view) => SettlingKeeps(p, env, b, offer, view);
    }
  }

  lemma WithinThen(a: map<string, Json>, b: map<string, Json>, c: map<string, Json>)
    requires Within(a, b) && Within(b, c)
    ensures Within(a, c)
  {
  }

  /** An op on offer can be settled as long as nobody else settles it. */
  lemma StaysEnabled(b: Books, b': Books, deed: Deed)
    requires deed.Settling? && Enabled(b, deed) && Within(b.memo, b'.memo) && b.offers <= b'.offers
    requires deed.offer.op.id !in b'.memo
    ensures Enabled(b', deed)
  {
    WithinThen(deed.view, b.memo, b'.memo);
  }

  /** Whatever is done in between, the books only grow. */
  lemma {:induction false} BooksGrow(p: Prog, env: Outcomes, deeds: seq<Deed>, more: seq<Deed>)
    requires Storable(env) && WellScoped(p) && CollisionFree(Ids(p))
    ensures var b, b' := BooksAfter(p, env, deeds), BooksAfter(p, env, deeds + more);
      Within(b.memo, b'.memo) && b.offers <= b'.offers
    decreases |more|
  {
    if more == [] {
      assert deeds + more == deeds;
    } else {
      var front, last := more[..|more| - 1], more[|more| - 1];
      assert (deeds + more)[..|deeds + more| - 1] == deeds + front;
      BooksGrow(p, env, deeds, front);
      BooksKept(p, env, deeds + front);
      DoKeeps(p, env, BooksAfter(p, env, deeds + front), last);
      WithinThen(BooksAfter(p, env, deeds).memo, BooksAfter(p, env, deeds + front).memo,
                 BooksAfter(p, env, deeds + more).memo);
    }
  }

  /** So an op on offer can be settled at any later time, unless it has been. */
  lemma OfferStays(p: Prog, env: Outcomes, deeds: seq<Deed>, more: seq<Deed>, deed: Deed)
    requires Storable(env) && WellScoped(p) && CollisionFree(Ids(p))
    requires deed.Settling? && Enabled(BooksAfter(p, env, deeds), deed)
    requires deed.offer.op.id !in BooksAfter(p, env, deeds + more).memo
    ensures Enabled(BooksAfter(p, env, deeds + more), deed)
  {
    BooksGrow(p, env, deeds, more);
    StaysEnabled(BooksAfter(p, env, deeds), BooksAfter(p, env, deeds + more), deed);
  }

  /** Over any schedule: the memo holds calls of the straight run with their own outcomes, no more than have
      been settled. */
  lemma {:induction false} BooksKept(p: Prog, env: Outcomes, deeds: seq<Deed>)
    requires Storable(env) && WellScoped(p) && CollisionFree(Ids(p))
    ensures Kept(p, env, BooksAfter(p, env, deeds))
    ensures |BooksAfter(p, env, deeds).memo| <= Settlings(p, env, deeds)
    decreases |deeds|
  {
    if deeds != [] {
      BooksKept(p, env, deeds[..|deeds| - 1]);
      DoKeeps(p, env, BooksAfter(p, env, deeds[..|deeds| - 1]), deeds[|deeds| - 1]);
    }
  }

  lemma {:induction false} EachSettlingStores(p: Prog, env: Outcomes, deeds: seq<Deed>)
    requires Storable(env) && WellScoped(p) && CollisionFree(Ids(p)) && Straight(p, map[], Yields(env)).out.Returns?
    requires forall deed :: deed in deeds ==> CarefulDeed(p, env, deed)
    ensures |BooksAfter(p, env, deeds).memo| == Settlings(p, env, deeds)
    decreases |deeds|
  {
    if deeds != [] {
      EachSettlingStores(p, env, deeds[..|deeds| - 1]);
      BooksKept(p, env, deeds[..|deeds| - 1]);
      DoKeeps(p, env, BooksAfter(p, env, deeds[..|deeds| - 1]), deeds[|deeds| - 1]);
    }
  }

  /** The reply lists ops, and each of them can be settled next. */
  ghost predicate NextOps(p: Prog, env: Outcomes, b: Books, planFirst: bool, inv: Invocation) {
    && Classify(inv).status.NotCompleted? && inv.ops != []
    && forall op :: op in inv.ops ==> Enabled(Do(p, env, b, Ask(planFirst)), Settling(Offer(op, b.memo), b.memo))
  }

  lemma NextOpsListed(p: Prog, env: Outcomes, b: Books, planFirst: bool)
    requires var inv := Pass(p, Request(b.memo, None, planFirst), env.bodies);
      inv.ops != [] && Classify(inv).status.NotCompleted?
    ensures NextOps(p, env, b, planFirst, Pass(p, Request(b.memo, None, planFirst), env.bodies))
  {
    OpsAreUnmemoized(p, Request(b.memo, None, planFirst), env.bodies);
  }

  /** A workflow that returns, under any schedule of a careful executor: every settling deed settles one more
      call of the straight run, there are never more of them than it has calls, and the reply to the next
      untargeted request is the straight run's answer exactly when there are as many; until then it lists ops,
      each of which can be settled. */
  lemma SchedulesRefineStraightRun(p: Prog, env: Outcomes, deeds: seq<Deed>, planFirst: bool)
    requires Storable(env) && WellScoped(p) && CollisionFree(Ids(p)) && Straight(p, map[], Yields(env)).out.Returns?
    requires forall deed :: deed in deeds ==> CarefulDeed(p, env, deed)
    ensures var d := Straight(p, map[], Yields(env));
      var b := BooksAfter(p, env, deeds);
      var inv := Pass(p, Request(b.memo, None, planFirst), env.bodies);
      && Settlings(p, env, deeds) == |b.memo| <= |d.made|
      && (if |b.memo| == |d.made| then Classify(inv) == Answer(d.out) else NextOps(p, env, b, planFirst, inv))
  {
    var d := Straight(p, map[], Yields(env));
    var b := BooksAfter(p, env, deeds);
    BooksKept(p, env, deeds);
    EachSettlingStores(p, env, deeds);
    StraightKeysApart(p, Yields(env));
    SettledAgrees(b.memo, d.made, env);
    SettledCount(b.memo, d.made, env);
    PassOffers(p, b.memo, planFirst, env);
    if !Covered(d.made, b.memo) {
      NextOpsListed(p, env, b, planFirst);
    }
  }
}
