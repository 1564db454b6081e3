/** What a step tool returns, and how each tool reads the memo of a step that already ran. */
module Memo {
  import opened Json
  import opened Errors

  /** The `(T, error)` pair a step tool, a branch or a workflow returns. */
  datatype StepResult = StepResult(value: Json, err: Option<GoErr>)

  /** A memo either yields the tool's result or makes the tool record an error and hijack. */
  datatype Decoded = Good(result: StepResult) | Bad(err: GoErr)

  datatype Tool =
    | Run
    | Sleep(duration: string)
    | WaitForEvent(name: string, event: string, timeout: string, cond: Option<string>)
    | Invoke(functionId: string, data: Json, user: Json, deadline: Option<string>)

  const EVENT_NOT_RECEIVED := Text("event not received")

  function DecodeFailure(what: string): GoErr {
    Wrapf("error unmarshalling " + what, Text("json"))
  }

  /** Plain decoding of a JSON text into T. */
  function Plain(data: Json, ty: Ty, what: string): Decoded {
    match ty.decode(data)
    case Some(v) => Good(StepResult(v, None))
    case None => Bad(DecodeFailure(what))
  }

  /** Decoding the `error` member of a Run memo: null gives an empty StepError, anything that is not an
      object with string name and message is rejected. */
  function DecodeStepError(j: Json): Option<GoErr> {
    match j
    case Null => Some(StepError("", "", None))
    case Object(members) =>
      (match (StringField(members, "name"), StringField(members, "message"))
       case (Some(name), Some(message)) => Some(StepError(name, message, Field(members, "data")))
       case _ => None)
    case _ => None
  }

  function DecodeRunError(errorMember: Json, ty: Ty, id: string): Decoded {
    match DecodeStepError(errorMember)
    case Some(StepError(name, message, Some(data))) =>
      (match ty.decode(data)
       case Some(v) => Good(StepResult(v, Some(StepError(name, message, Some(data)))))
       case None => Bad(DecodeFailure("state for step '" + id + "'")))
    case Some(_) => Bad(DecodeFailure("state for step '" + id + "'"))
    case None => Bad(DecodeFailure("error for step '" + id + "'"))
  }

  /** `Run`: an `error` member wins, then a `data` member, then the memo itself. */
  function DecodeRun(memo: Json, ty: Ty, id: string): Decoded {
    if memo.Object? && Field(memo.members, "error").Some? then
      DecodeRunError(Field(memo.members, "error").value, ty, id)
    else if memo.Object? && Field(memo.members, "data").Some? then
      Plain(Field(memo.members, "data").value, ty, "state for step '" + id + "'")
    else
      Plain(memo, ty, "state for step '" + id + "'")
  }

  /** `WaitForEvent`: null means the wait timed out. */
  function DecodeWait(memo: Json, ty: Ty, event: string): Decoded {
    if memo.Null? then Good(StepResult(ty.zero, Some(EVENT_NOT_RECEIVED)))
    else Plain(memo, ty, "wait for event value in '" + event + "'")
  }

  /** `Invoke`: `data` wins over `error`; any other shape is an error of the invocation. */
  function DecodeInvoke(memo: Json, ty: Ty, functionId: string): Decoded {
    if !memo.Object? && !memo.Null? then
      Bad(DecodeFailure("invoke value for '" + functionId + "'"))
    else
      var members := if memo.Object? then memo.members else [];
      match (Entry(members, "data"), Entry(members, "error"))
      case (Some(data), _) => Plain(data, ty, "invoke data for '" + functionId + "'")
      case (None, Some(error)) =>
        var message := match error
          case Null => Some("")
          case Object(ms) => StringField(ms, "message")
          case _ => None;
        if message.Some? then Good(StepResult(ty.zero, Some(NoRetry(Text(message.value)))))
        else Bad(DecodeFailure("invoke error for '" + functionId + "'"))
      case _ => Bad(Text("error parsing invoke value for '" + functionId + "'; unknown shape"))
  }

  function Decode(tool: Tool, memo: Json, ty: Ty, id: string): Decoded {
    match tool
    case Run => DecodeRun(memo, ty, id)
    case Sleep(_) => Good(StepResult(Null, None))
    case WaitForEvent(_, event, _, _) => DecodeWait(memo, ty, event)
    case Invoke(functionId, _, _, _) => DecodeInvoke(memo, ty, functionId)
  }

  /* ---------- what each tool reads, told from the memo's text ---------- */

  /** The memo gives this value without an error if the result type takes it, and otherwise fails the invocation. */
  predicate ReadsAs(d: Decoded, ty: Ty, value: Json) {
    if ty.decode(value).Some? then d == Good(StepResult(ty.decode(value).value, None)) else d.Bad?
  }

  /** A wait that timed out gives the zero value and the error for it; an event is given as it came. */
  lemma WaitReads(tool: Tool, memo: Json, ty: Ty, id: string)
    requires tool.WaitForEvent?
    ensures memo == Null ==> Decode(tool, memo, ty, id) == Good(StepResult(ty.zero, Some(Text("event not received"))))
    ensures memo != Null ==> ReadsAs(Decode(tool, memo, ty, id), ty, memo)
  {
  }

  /** A sleep that is over gives no error, whatever its memo. */
  lemma SleepReads(tool: Tool, memo: Json, ty: Ty, id: string)
    requires tool.Sleep?
    ensures Decode(tool, memo, ty, id).Good? && Decode(tool, memo, ty, id).result.err == None
  {
  }

  /** An invoked function's `data` is the result, whatever stands beside it. */
  lemma InvokeReadsData(tool: Tool, members: seq<(string, Json)>, ty: Ty, id: string, i: nat)
    requires tool.Invoke? && LastWithKey(members, "data", i)
    ensures ReadsAs(Decode(tool, Object(members), ty, id), ty, members[i].1)
  {
    EntryIsLast(members, "data");
  }

  /** Without `data`, its `error` is an error that is not retried and has the message given; an error without a
      message, or one that is no text, is told apart. */
  lemma InvokeReadsError(tool: Tool, members: seq<(string, Json)>, ty: Ty, id: string, i: nat)
    requires tool.Invoke? && LastWithKey(members, "error", i)
    requires forall j :: 0 <= j < |members| ==> members[j].0 != "data"
    ensures var d := Decode(tool, Object(members), ty, id);
      match members[i].1
      case Object(fields) =>
        (if exists k: nat :: GivesNoText(fields, "message", k) then d.Bad?
         else forall k: nat :: LastText(fields, "message", k) ==> FailsWith(d, ty, fields[k].1.text))
        && ((forall k: nat :: k < |fields| ==> !SameLetters(fields[k].0, "message")) ==> FailsWith(d, ty, ""))
      case Null => FailsWith(d, ty, "")
      case _ => d.Bad?
  {
    EntryIsLast(members, "data");
    EntryIsLast(members, "error");
    if members[i].1.Object? {
      var fields := members[i].1.members;
      StringFieldReads(fields, "message");
      if StringField(fields, "message").Some? {
        NoRetryFails(ty, StringField(fields, "message").value);
      }
    }
  }

  lemma NoRetryFails(ty: Ty, message: string)
    ensures FailsWith(Good(StepResult(ty.zero, Some(NoRetry(Text(message))))), ty, message)
  {
    assert NoRetryKind(NoRetry(Text(message))) && !StepKind(NoRetry(Text(message))) && !StepKind(Text(message));
    assert Find(Text(message), StepKind) == None;
  }

  /** The zero value with a non-retried error of this message. */
  predicate FailsWith(d: Decoded, ty: Ty, message: string) {
    && d.Good? && d.result.value == ty.zero && d.result.err.Some?
    && IsNoRetryError(d.result.err) && !IsStepError(d.result.err) && Message(d.result.err.value) == message
  }

  /** The shape the executor sends for a failed function. */
  lemma InvokeReadsFailure(tool: Tool, message: string, ty: Ty, id: string)
    requires tool.Invoke?
    ensures FailsWith(Decode(tool, Object([("error", Object([("message", Str(message))]))]), ty, id), ty, message)
  {
    var fields := [("message", Str(message))];
    var members := [("error", Object(fields))];
    assert members[0].0 != "data" by { assert |"error"| == 5 && |"data"| == 4; }
    InvokeReadsError(tool, members, ty, id, 0);
    assert SameLetters(fields[0].0, "message");
    assert LastText(fields, "message", 0);
    assert !exists k: nat :: GivesNoText(fields, "message", k);
  }

  /** Any other memo of an invoked function fails the invocation. */
  lemma InvokeReadsNothingElse(tool: Tool, memo: Json, ty: Ty, id: string)
    requires tool.Invoke?
    requires memo.Object? ==> forall j :: 0 <= j < |memo.members| ==> memo.members[j].0 !in {"data", "error"}
    ensures Decode(tool, memo, ty, id).Bad?
  {
    if memo.Object? {
      EntryIsLast(memo.members, "data");
      EntryIsLast(memo.members, "error");
    }
  }

  /** The step's error with this data, if name and message are texts and the result type takes the data. */
  predicate StepFailsWith(d: Decoded, ty: Ty, fields: seq<(string, Json)>, data: Json) {
    match (StringField(fields, "name"), StringField(fields, "message"), ty.decode(data))
    case (Some(name), Some(message), Some(value)) =>
      d == Good(StepResult(value, Some(StepError(name, message, Some(data)))))
    case _ => d.Bad?
  }

  /** A step's memo with an `error` member, in any letter case, gives the error and the data in it; without data,
      or with anything but an object, it fails the invocation. */
  lemma RunReadsError(members: seq<(string, Json)>, ty: Ty, id: string, i: nat)
    requires LastMatching(members, "error", i)
    ensures var d := Decode(Run, Object(members), ty, id);
      match members[i].1
      case Object(fields) =>
        (forall k: nat :: LastMatching(fields, "data", k) ==> StepFailsWith(d, ty, fields, fields[k].1))
        && ((forall k: nat :: k < |fields| ==> !SameLetters(fields[k].0, "data")) ==> d.Bad?)
      case _ => d.Bad?
  {
    FieldIsLast(members, "error");
    if members[i].1.Object? {
      FieldIsLast(members[i].1.members, "data");
    }
  }

  /** Without an `error` member a `data` member is the result. */
  lemma RunReadsData(members: seq<(string, Json)>, ty: Ty, id: string, i: nat)
    requires forall j :: 0 <= j < |members| ==> !SameLetters(members[j].0, "error")
    requires LastMatching(members, "data", i)
    ensures ReadsAs(Decode(Run, Object(members), ty, id), ty, members[i].1)
  {
    FieldIsLast(members, "error");
    FieldIsLast(members, "data");
  }

  /** Without both the memo itself is. */
  lemma RunReadsBare(memo: Json, ty: Ty, id: string)
    requires (memo.Object? ==> forall j :: 0 <= j < |memo.members| ==>
        !SameLetters(memo.members[j].0, "error") && !SameLetters(memo.members[j].0, "data"))
    ensures ReadsAs(Decode(Run, memo, ty, id), ty, memo)
  {
    if memo.Object? {
      FieldIsLast(memo.members, "error");
      FieldIsLast(memo.members, "data");
    }
  }

  /** A result stored in the compliant `{"data": ...}` shape always reads back as the result itself. */
  lemma WrappedDataReadsBack(data: Json, ty: Ty, id: string)
    ensures DecodeRun(WrapData(data), ty, id) == Plain(data, ty, "state for step '" + id + "'")
    ensures ReadsAs(DecodeRun(WrapData(data), ty, id), ty, data)
  {
    var members := WrapData(data).members;
    assert members[..0] == [];
    assert Fold("data") == "data" by { assert Fold("data") == ['d', 'a', 't', 'a']; }
    assert "data" != "error" by { assert |"data"| == 4 && |"error"| == 5; }
    assert Field(members, "error").None?;
    assert Field(members, "data") == Some(data);
  }

  /** A failure stored in the `{"error": ...}` shape reads back as a StepError with the same name,
      message and data; without data it makes the invocation fail. */
  lemma WrappedErrorReadsBack(name: string, message: string, data: Option<Json>, ty: Ty, id: string)
    ensures DecodeRun(WrapError(name, message, data), ty, id) ==
      if data.Some? && ty.decode(data.value).Some?
      then Good(StepResult(ty.decode(data.value).value, Some(StepError(name, message, data))))
      else Bad(DecodeFailure("state for step '" + id + "'"))
  {
    var memo := WrapError(name, message, data);
    assert Fold("error") == "error" by { assert Fold("error") == ['e', 'r', 'r', 'o', 'r']; }
    assert memo.members[..0] == [];
    var inner := Field(memo.members, "error").value;
    assert Fold("name") == "name" by { assert Fold("name") == ['n', 'a', 'm', 'e']; }
    assert Fold("message") == "message" by { assert Fold("message") == ['m', 'e', 's', 's', 'a', 'g', 'e']; }
    assert Fold("data") == "data" by { assert Fold("data") == ['d', 'a', 't', 'a']; }
    var two := [("name", Str(name)), ("message", Str(message))];
    assert two[..1] == [("name", Str(name))];
    assert two[..1][..0] == [];
    assert "name"[0] != "message"[0] && "name"[0] != "data"[0] && "message"[0] != "data"[0];
    assert Field(two[..1], "data").None? && Field(two, "data").None?;
    assert StringField(two[..1], "name") == Some(name) && StringField(two[..1], "message") == Some("");
    assert StringField(two, "name") == Some(name) && StringField(two, "message") == Some(message);
    if data.Some? {
      var three := two + [("data", data.value)];
      assert three[..2] == two;
      assert inner == Object(three);
      assert StringField(three, "name") == Some(name) && StringField(three, "message") == Some(message);
      assert Field(three, "data") == data;
    } else {
      assert inner == Object(two);
    }
  }

  /** A result stored raw (as `StepRun` ops carry it) reads back as itself for every result type
      exactly when it has no top-level `data` or `error` member, in any letter case. */
  lemma RawDataReadsBackIff(v: Json, id: string)
    ensures (forall ty: Ty :: DecodeRun(v, ty, id) == Plain(v, ty, "state for step '" + id + "'"))
      <==> !(v.Object? && (Field(v.members, "data").Some? || Field(v.members, "error").Some?))
  {
    if v.Object? && Field(v.members, "error").Some? {
      var never := Ty(Null, (j: Json) => if j == v then Some(v) else None);
      assert Plain(v, never, "state for step '" + id + "'").Good?;
      assert DecodeRun(v, never, id) != Plain(v, never, "state for step '" + id + "'");
    } else if v.Object? && Field(v.members, "data").Some? {
      var d := Field(v.members, "data").value;
      var i :| 0 <= i < |v.members| && v.members[i].1 == d;
      MemberIsSmaller(v, i);
      var same := Ty(Null, (j: Json) => Some(j));
      assert DecodeRun(v, same, id) != Plain(v, same, "state for step '" + id + "'");
    }
  }

  lemma MemberIsSmaller(v: Json, i: nat)
    requires v.Object? && i < |v.members|
    ensures v.members[i].1 != v
  {
    assert (v.members decreases to v.members[i].1);
  }
}
