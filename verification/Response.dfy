/** How an invocation's result is reported to the executor, over HTTP, streaming HTTP and connect. */
module Response {
  import opened Json
  import opened Errors
  import opened Engine
  import opened Workflow
  import opened PassShape

  datatype Status = Done | NotCompleted | Errored

  datatype Body = ResultBody(resp: Option<Json>) | OpsBody(ops: seq<Opcode>) | ErrorBody(err: GoErr)

  datatype Reply = Reply(status: Status, body: Body, noRetry: bool, retryAt: Option<int>)

  /** The step failed on its own: the op says so, the error only carries retry hints. */
  predicate FailureReported(inv: Invocation) {
    |inv.ops| == 1 && inv.ops[0].kind.StepFailed?
  }

  /** The error that is left for the executor to see. */
  function LeftError(inv: Invocation): Option<GoErr> {
    if FailureReported(inv) then None
    else if IsStepError(inv.err) then Some(UnhandledStepError(inv.err.value))
    else inv.err
  }

  function Classify(inv: Invocation): Reply {
    var noRetry := IsNoRetryError(inv.err) || (!FailureReported(inv) && IsStepError(inv.err));
    var retryAt := GetRetryAtTime(inv.err);
    match LeftError(inv)
    case Some(e) => Reply(Errored, ErrorBody(e), noRetry, retryAt)
    case None =>
      if inv.ops != [] then Reply(NotCompleted, OpsBody(inv.ops), noRetry, retryAt)
      else Reply(Done, ResultBody(inv.resp), noRetry, retryAt)
  }

  /* ---------- what a reply says, told from the invocation's error tree ---------- */

  /** The tree has a step error, or one that forbids retries. */
  ghost predicate HasStepError(err: Option<GoErr>) {
    err.Some? && exists x :: x in Nodes(err.value) && x.StepError?
  }

  ghost predicate HasNoRetry(err: Option<GoErr>) {
    err.Some? && exists x :: x in Nodes(err.value) && x.NoRetry?
  }

  /** Node `i` of the tree is the first with a retry time. */
  predicate FirstRetryAt(e: GoErr, i: nat) {
    i < |Nodes(e)| && Nodes(e)[i].RetryAt? && forall j :: 0 <= j < i ==> !Nodes(e)[j].RetryAt?
  }

  /** The retry time is the first of the tree, if there is one. */
  ghost predicate TimesRetry(err: Option<GoErr>, retryAt: Option<int>) {
    if err.Some? && exists x :: x in Nodes(err.value) && x.RetryAt?
    then exists i: nat :: FirstRetryAt(err.value, i) && retryAt == Some(Nodes(err.value)[i].at)
    else retryAt == None
  }

  /** What the reply says. A failed step that is reported alone leaves its hints and nothing else of the error;
      a step error that gets through is not retried; ops come before the result. */
  ghost predicate Tells(inv: Invocation, r: Reply) {
    var alone := |inv.ops| == 1 && inv.ops[0].kind == StepFailed;
    && (r.noRetry <==> HasNoRetry(inv.err) || (HasStepError(inv.err) && !alone))
    && TimesRetry(inv.err, r.retryAt)
    && (r.status == Errored <==> inv.err.Some? && !alone)
    && (r.status == Errored ==>
          r.body == ErrorBody(if HasStepError(inv.err) then Text("Unhandled step error: " + Message(inv.err.value))
                              else inv.err.value))
    && (r.status == NotCompleted ==> inv.ops != [] && r.body == OpsBody(inv.ops))
    && (r.status == Done ==> inv.ops == [] && r.body == ResultBody(inv.resp))
  }

  lemma {:induction false} FirstRetryAtExists(e: GoErr, n: nat)
    requires n < |Nodes(e)| && Nodes(e)[n].RetryAt?
    ensures exists i: nat :: FirstRetryAt(e, i)
    decreases n
  {
    if j :| 0 <= j < n && Nodes(e)[j].RetryAt? {
      FirstRetryAtExists(e, j);
    } else {
      assert FirstRetryAt(e, n);
    }
  }

  lemma RetryTimeIsFirst(err: Option<GoErr>)
    ensures TimesRetry(err, GetRetryAtTime(err))
  {
    if err.Some? {
      var e := err.value;
      if x :| x in Nodes(e) && x.RetryAt? {
        var n :| 0 <= n < |Nodes(e)| && Nodes(e)[n] == x;
        FirstRetryAtExists(e, n);
        var i: nat :| FirstRetryAt(e, i);
        RetryAtIsOutermost(e, i);
      } else {
        NoRetryAtMeansNone(e);
      }
    }
  }

  /** Every reply says just that. */
  lemma ClassifyTells(inv: Invocation)
    ensures Tells(inv, Classify(inv))
  {
    RetryTimeIsFirst(inv.err);
    if inv.err.Some? {
      StepAndNoRetryInTree(inv.err.value);
    }
  }

  /** handler.go's reply: a returned error becomes status 500, ops 206, anything else 200. */
  method HttpReply(inv: Invocation) returns (code: nat, body: Body, noRetryHeader: bool, retryAfter: Option<int>)
    ensures Reply(if code == 500 then Errored else if code == 206 then NotCompleted else Done,
                  body, noRetryHeader, retryAfter)
         == Classify(inv)
    ensures code in {200, 206, 500}
    ensures Tells(inv, Reply(if code == 500 then Errored else if code == 206 then NotCompleted else Done,
                             body, noRetryHeader, retryAfter))
  {
    ClassifyTells(inv);
    var err := inv.err;
    noRetryHeader := IsNoRetryError(err);
    retryAfter := GetRetryAtTime(err);
    if |inv.ops| == 1 && inv.ops[0].kind.StepFailed? {
      err := None;
    }
    if IsStepError(err) {
      err := Some(UnhandledStepError(err.value));
      noRetryHeader := true;
    }
    if err.Some? { return 500, ErrorBody(err.value), noRetryHeader, retryAfter; }
    if |inv.ops| > 0 { return 206, OpsBody(inv.ops), noRetryHeader, retryAfter; }
    return 200, ResultBody(inv.resp), noRetryHeader, retryAfter;
  }

  /** connect/invoke.go's reply: the same classification, reported as an SDK response status. */
  method ConnectReply(inv: Invocation) returns (r: Reply)
    ensures r == Classify(inv) && Tells(inv, r)
  {
    ClassifyTells(inv);
    var err := inv.err;
    var noRetry := IsNoRetryError(err);
    var retryAt := GetRetryAtTime(err);
    if |inv.ops| == 1 && inv.ops[0].kind.StepFailed? {
      err := None;
    }
    if IsStepError(err) {
      err := Some(UnhandledStepError(err.value));
      noRetry := true;
    }
    if err.Some? { return Reply(Errored, ErrorBody(err.value), noRetry, retryAt); }
    if |inv.ops| > 0 { return Reply(NotCompleted, OpsBody(inv.ops), noRetry, retryAt); }
    return Reply(Done, ResultBody(inv.resp), noRetry, retryAt);
  }

  /** The streaming reply leaves the retry hints out unless it reports an error. */
  method StreamReply(inv: Invocation) returns (r: Reply)
    ensures r == Classify(inv) || (r == Classify(inv).(noRetry := false, retryAt := None))
    ensures r == Classify(inv) <==>
      !(FailureReported(inv) && (IsNoRetryError(inv.err) || GetRetryAtTime(inv.err).Some?))
    ensures r.status == Errored ==> Tells(inv, r)
    ensures r.status != Errored ==> !r.noRetry && r.retryAt == None && r.status == Classify(inv).status
  {
    ClassifyTells(inv);
    var err := inv.err;
    var noRetry := IsNoRetryError(err);
    var retryAt := GetRetryAtTime(err);
    if |inv.ops| == 1 && inv.ops[0].kind.StepFailed? {
      err := None;
    }
    if IsStepError(err) {
      err := Some(UnhandledStepError(err.value));
      noRetry := true;
    }
    if err.Some? { return Reply(Errored, ErrorBody(err.value), noRetry, retryAt); }
    if |inv.ops| > 0 { return Reply(NotCompleted, OpsBody(inv.ops), false, None); }
    return Reply(Done, ResultBody(inv.resp), false, None);
  }

  /** An untargeted invocation is reported done exactly when the workflow function itself returned
      without error, and then with its value. Any other ending is reported with ops or an error. */
  lemma DoneIffReturned(p: Prog, req: Request, bodies: Bodies)
    requires req.target.None?
    ensures var (_, out) := Exec(p, FRESH, req, false, bodies);
      var reply := Classify(Pass(p, req, bodies));
      && (reply.status.Done? <==> out.Value? && out.value.err.None?)
      && (reply.status.Done? ==> reply.body == ResultBody(Some(out.value.value)))
      && (reply.status.NotCompleted? ==> !out.Value? && Pass(p, req, bodies).ops != [])
  {
    ExecMoves(p, FRESH, req, false, bodies);
    var (t, out) := Exec(p, FRESH, req, false, bodies);
    var inv := Pass(p, req, bodies);
    if out.Panic? && |inv.ops| > 0 {
      assert !BodyOp(t.ops[0]);
    }
    assert out.Panic? ==> LeftError(inv).Some?;
    assert out.Value? ==> inv.ops == [] && inv.err == out.value.err;
    assert out.Hijack? ==> inv.ops != [] || inv.err.Some?;
  }
}
