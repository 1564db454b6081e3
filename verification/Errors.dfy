/** Go error values as trees of wrappers, and the predicates of errors/errors.go over them. */
module Errors {
  import opened Json

  datatype GoErr =
    | Text(text: string)
    | Wrapf(text: string, inner: GoErr)
    | Joined(text: string, parts: seq<GoErr>)
    | StepError(name: string, message: string, data: Option<Json>)
    | NoRetry(inner: GoErr)
    | RetryAt(inner: GoErr, at: int)
    | Reconnect(inner: GoErr)
    | CloseError(reason: string)
    | Unauthenticated
    | TooManyConnections
    | GatewayDraining
    | EndOfFile
    | NetClosed

  /** `err.Error()` */
  function Message(e: GoErr): string {
    match e
    case Text(text) => text
    case Wrapf(text, _) => text
    case Joined(text, _) => text
    case StepError(_, message, _) => message
    case NoRetry(inner) => Message(inner)
    case RetryAt(inner, _) => Message(inner)
    case Reconnect(inner) => "reconnect error: " + Message(inner)
    case CloseError(reason) => "status = " + reason
    case Unauthenticated => "authentication failed"
    case TooManyConnections => "too many connections"
    case GatewayDraining => "gateway is draining"
    case EndOfFile => "EOF"
    case NetClosed => "use of closed network connection"
  }

  /** The depth-first search that `errors.Is` and `errors.As` share: the first error in the tree `hit` accepts. */
  function Find(e: GoErr, hit: GoErr -> bool): (r: Option<GoErr>)
    ensures r.Some? ==> hit(r.value)
    decreases e
  {
    if hit(e) then Some(e)
    else
      match e
      case Wrapf(_, inner) => Find(inner, hit)
      case NoRetry(inner) => Find(inner, hit)
      case RetryAt(inner, _) => Find(inner, hit)
      case Reconnect(inner) => Find(inner, hit)
      case Joined(_, parts) => FindAny(parts, hit)
      case _ => None
  }

  function FindAny(es: seq<GoErr>, hit: GoErr -> bool): (r: Option<GoErr>)
    ensures r.Some? ==> hit(r.value)
    decreases es
  {
    if es == [] then None
    else
      var first := Find(es[0], hit);
      if first.Some? then first else FindAny(es[1..], hit)
  }

  predicate StepKind(e: GoErr) { e.StepError? }
  predicate NoRetryKind(e: GoErr) { e.NoRetry? }
  predicate RetryAtKind(e: GoErr) { e.RetryAt? }

  predicate IsStepError(e: Option<GoErr>) {
    e.Some? && Find(e.value, StepKind).Some?
  }

  predicate IsNoRetryError(e: Option<GoErr>) {
    e.Some? && Find(e.value, NoRetryKind).Some?
  }

  function GetRetryAtTime(e: Option<GoErr>): Option<int> {
    if e.None? then None
    else
      match Find(e.value, RetryAtKind)
      case Some(RetryAt(_, at)) => Some(at)
      case _ => None
  }

  /** Every error of a tree, outermost first: the reference the searches are measured against. */
  function Nodes(e: GoErr): seq<GoErr>
    decreases e
  {
    [e] + match e
          case Wrapf(_, inner) => Nodes(inner)
          case NoRetry(inner) => Nodes(inner)
          case RetryAt(inner, _) => Nodes(inner)
          case Reconnect(inner) => Nodes(inner)
          case Joined(_, parts) => NodesOfAll(parts)
          case _ => []
  }

  function NodesOfAll(es: seq<GoErr>): seq<GoErr>
    decreases es
  {
    if es == [] then [] else Nodes(es[0]) + NodesOfAll(es[1..])
  }

  /** `c` is what `Unwrap` of `e` gives, or one of the errors it gives. */
  predicate Wraps(e: GoErr, c: GoErr) {
    match e
    case Wrapf(_, inner) => c == inner
    case NoRetry(inner) => c == inner
    case RetryAt(inner, _) => c == inner
    case Reconnect(inner) => c == inner
    case Joined(_, parts) => c in parts
    case _ => false
  }

  /** The tree is the error itself first, and the trees of all it wraps. */
  lemma NodesAreTree(e: GoErr, x: GoErr)
    ensures Nodes(e)[0] == e
    ensures x in Nodes(e) <==> x == e || exists c :: Wraps(e, c) && x in Nodes(c)
  {
    if e.Joined? {
      NodesOfAllHold(e.parts, x);
    } else if x in Nodes(e)[1..] {
      assert Wraps(e, e.inner) && x in Nodes(e.inner);
    }
  }

  lemma {:induction false} NodesOfAllHold(es: seq<GoErr>, x: GoErr)
    ensures x in NodesOfAll(es) <==> exists c :: c in es && x in Nodes(c)
  {
    if es != [] {
      NodesOfAllHold(es[1..], x);
      assert es == [es[0]] + es[1..];
      if x in NodesOfAll(es) && x !in Nodes(es[0]) {
        var c :| c in es[1..] && x in Nodes(c);
        assert c in es;
      }
      if c :| c in es && x in Nodes(c) {
        assert c == es[0] || c in es[1..];
      }
    }
  }

  /** The trees of joined errors come one after the other, in the order they were joined. */
  lemma JoinedInOrder(text: string, parts: seq<GoErr>, a: seq<GoErr>, b: seq<GoErr>)
    requires parts == a + b
    ensures Nodes(Joined(text, parts)) == [Joined(text, parts)] + (NodesOfAll(a) + NodesOfAll(b))
  {
    NodesOfBoth(a, b);
  }

  lemma {:induction false} NodesOfBoth(a: seq<GoErr>, b: seq<GoErr>)
    ensures NodesOfAll(a + b) == NodesOfAll(a) + NodesOfAll(b)
  {
    if a == [] {
      assert a + b == b;
    } else {
      assert (a + b)[1..] == a[1..] + b;
      NodesOfBoth(a[1..], b);
    }
  }

  /** The first element of a list that `hit` accepts. */
  function First(es: seq<GoErr>, hit: GoErr -> bool): (r: Option<GoErr>)
    ensures r.Some? <==> exists i :: 0 <= i < |es| && hit(es[i])
    ensures (r.Some? ==>
        exists i :: 0 <= i < |es| && es[i] == r.value && hit(es[i]) && forall j :: 0 <= j < i ==> !hit(es[j]))
  {
    if es == [] then None
    else if hit(es[0]) then Some(es[0])
    else
      var r := First(es[1..], hit);
      assert forall i :: 0 < i < |es| ==> es[i] == es[1..][i - 1];
      r
  }

  lemma {:induction false} FirstOfConcat(a: seq<GoErr>, b: seq<GoErr>, hit: GoErr -> bool)
    ensures First(a + b, hit) == if First(a, hit).Some? then First(a, hit) else First(b, hit)
  {
    if a == [] {
      assert a + b == b;
    } else {
      assert (a + b)[1..] == a[1..] + b;
      FirstOfConcat(a[1..], b, hit);
    }
  }

  lemma FirstOfTree(e: GoErr, below: seq<GoErr>, hit: GoErr -> bool)
    ensures First([e] + below, hit) == if hit(e) then Some(e) else First(below, hit)
  {
    assert ([e] + below)[1..] == below;
  }

  /** A tree walk finds exactly the outermost, leftmost error of the kind looked for. */
  lemma {:induction false} FindIsFirstNode(e: GoErr, hit: GoErr -> bool)
    ensures Find(e, hit) == First(Nodes(e), hit)
    decreases e
  {
    match e
    case Wrapf(_, inner) => FindIsFirstNode(inner, hit); FirstOfTree(e, Nodes(inner), hit);
    case NoRetry(inner) => FindIsFirstNode(inner, hit); FirstOfTree(e, Nodes(inner), hit);
    case RetryAt(inner, _) => FindIsFirstNode(inner, hit); FirstOfTree(e, Nodes(inner), hit);
    case Reconnect(inner) => FindIsFirstNode(inner, hit); FirstOfTree(e, Nodes(inner), hit);
    case Joined(_, parts) => FindAnyIsFirstNode(parts, hit); FirstOfTree(e, NodesOfAll(parts), hit);
    case _ => FirstOfTree(e, [], hit); assert Nodes(e) == [e] + [];
  }

  lemma {:induction false} FindAnyIsFirstNode(es: seq<GoErr>, hit: GoErr -> bool)
    ensures FindAny(es, hit) == First(NodesOfAll(es), hit)
    decreases es
  {
    if es != [] {
      FindIsFirstNode(es[0], hit);
      FindAnyIsFirstNode(es[1..], hit);
      FirstOfConcat(Nodes(es[0]), NodesOfAll(es[1..]), hit);
    }
  }

  /** The public predicates, read off the flattened tree. */
  lemma StepAndNoRetryInTree(e: GoErr)
    ensures IsStepError(Some(e)) <==> exists x :: x in Nodes(e) && x.StepError?
    ensures IsNoRetryError(Some(e)) <==> exists x :: x in Nodes(e) && x.NoRetry?
  {
    FindIsFirstNode(e, StepKind);
    FindIsFirstNode(e, NoRetryKind);
  }

  /** The retry time is the one of the outermost, leftmost RetryAt error; None means there is no such error. */
  lemma RetryAtIsOutermost(e: GoErr, i: nat)
    requires i < |Nodes(e)| && Nodes(e)[i].RetryAt?
    requires forall j :: 0 <= j < i ==> !Nodes(e)[j].RetryAt?
    ensures GetRetryAtTime(Some(e)) == Some(Nodes(e)[i].at)
  {
    FindIsFirstNode(e, RetryAtKind);
    assert RetryAtKind(Nodes(e)[i]);
  }

  lemma NoRetryAtMeansNone(e: GoErr)
    requires forall x :: x in Nodes(e) ==> !x.RetryAt?
    ensures GetRetryAtTime(Some(e)) == None
  {
    FindIsFirstNode(e, RetryAtKind);
  }

  /** What `NoRetryError` and `RetryAtError` put around an error, outermost first. */
  datatype Hint = NeverAgain | NotBefore(time: int)

  function Hinted(hints: seq<Hint>, e: GoErr): GoErr {
    if hints == [] then e
    else if hints[0].NeverAgain? then NoRetry(Hinted(hints[1..], e))
    else RetryAt(Hinted(hints[1..], e), hints[0].time)
  }

  /** Hints, however many, leave the message and the kind of the error alone. */
  lemma {:induction false} HintsKeepMessage(hints: seq<Hint>, e: GoErr)
    ensures Message(Hinted(hints, e)) == Message(e)
    ensures IsStepError(Some(Hinted(hints, e))) <==> IsStepError(Some(e))
  {
    if hints != [] {
      HintsKeepMessage(hints[1..], e);
    }
  }

  /** One of them is enough to forbid retries. */
  lemma {:induction false} HintsForbidRetries(hints: seq<Hint>, e: GoErr)
    ensures IsNoRetryError(Some(Hinted(hints, e))) <==> NeverAgain in hints || IsNoRetryError(Some(e))
  {
    if hints != [] {
      HintsForbidRetries(hints[1..], e);
      assert hints == [hints[0]] + hints[1..];
    }
  }

  /** The outermost time counts. */
  lemma {:induction false} HintsTimeRetries(hints: seq<Hint>, e: GoErr, i: nat)
    requires i < |hints| && hints[i].NotBefore? && forall j :: 0 <= j < i ==> hints[j].NeverAgain?
    ensures GetRetryAtTime(Some(Hinted(hints, e))) == Some(hints[i].time)
    decreases i
  {
    if i > 0 {
      assert hints[0].NeverAgain? && hints[1..][i - 1] == hints[i];
      HintsTimeRetries(hints[1..], e, i - 1);
    }
  }

  /** Without one among the hints, the time is the error's own. */
  lemma {:induction false} HintsKeepTime(hints: seq<Hint>, e: GoErr)
    requires forall h :: h in hints ==> h.NeverAgain?
    ensures GetRetryAtTime(Some(Hinted(hints, e))) == GetRetryAtTime(Some(e))
  {
    if hints != [] {
      assert hints[0] in hints;
      HintsKeepTime(hints[1..], e);
    }
  }
}
