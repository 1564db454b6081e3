/** How step bodies end, and what a straight-line caller, the executor's memo and the report make of it. */
module BodyOutcomes {
  import opened Json
  import opened Errors
  import opened StepKeys
  import opened Memo
  import opened Engine

  /** Endings of a body that end the whole run: a panic, a result JSON cannot hold, a step error let through. */
  predicate Breaks(b: BodyResult) {
    b.Panicked? || (b.Returned? && b.data.None?) || (b.Failed? && IsStepError(Some(b.err)))
  }

  /** What `Run` gives a straight-line caller for a body that ended this way. */
  function FromBody(b: BodyResult, ty: Ty, id: string): Decoded {
    match b
    case Panicked(msg) => Bad(Text("function panicked: " + msg))
    case Returned(None) => Bad(UNMARSHALABLE)
    case Returned(Some(data)) => Plain(data, ty, "state for step '" + id + "'")
    case Failed(e, data) =>
      if IsStepError(Some(e)) then Bad(UnhandledStepError(e))
      else if data.Some? && ty.decode(data.value).Some? then
        Good(StepResult(ty.decode(data.value).value, Some(StepError("Step failed", Message(e), data))))
      else Bad(DecodeFailure("state for step '" + id + "'"))
  }

  /** An executor stores a result wrapped, or as it is. */
  function StoreAs(raw: bool, data: Json): Json {
    if raw then data else WrapData(data)
  }

  /** What the executor stores for a body that does not end the run. */
  function Stored(b: BodyResult, raw: bool): Json {
    match b
    case Returned(Some(data)) => StoreAs(raw, data)
    case Failed(e, data) => WrapError("Step failed", Message(e), data)
    case _ => Null
  }

  /** A JSON value that no memo reader takes for a wrapper. */
  predicate Bare(v: Json) {
    !(v.Object? && (Field(v.members, "data").Some? || Field(v.members, "error").Some?))
  }

  /** What is stored for the body cannot be misread: it is wrapped, or the result is bare. */
  predicate Readable(b: BodyResult, raw: bool) {
    raw && b.Returned? && b.data.Some? ==> Bare(b.data.value)
  }

  /** The op that reports a body. */
  function ReportOf(c: CallId, b: BodyResult): Opcode
    requires !Breaks(b)
  {
    if b.Failed? then FailOp(c, b.err, b.data) else RunOp(c, b.data)
  }

  /** The memo stored for a body reads back as what the body gave a straight-line caller. */
  lemma BodyReadsBack(b: BodyResult, raw: bool, ty: Ty, id: string)
    requires !Breaks(b) && Readable(b, raw)
    ensures DecodeRun(Stored(b, raw), ty, id) == FromBody(b, ty, id)
  {
    match b
    case Returned(Some(data)) =>
      if raw {
        RawDataReadsBackIff(data, id);
      } else {
        WrappedDataReadsBack(data, ty, id);
      }
    case Failed(e, data) =>
      WrappedErrorReadsBack("Step failed", Message(e), data, ty, id);
      assert !IsStepError(Some(e));
  }

  /** What a caller gets to see comes from a body that does not end the run. */
  lemma GoodDoesNotBreak(b: BodyResult, ty: Ty, id: string)
    requires FromBody(b, ty, id).Good?
    ensures !Breaks(b)
  {
    match b
    case Returned(None) =>
    case _ =>
  }
}
