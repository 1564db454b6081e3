/** What the environments of a run have in common. */
module Executor {
  import opened Json
  import opened Workflow
  import opened Direct
  import opened Response

  /** The memo only grows from the one to the other. */
  ghost predicate Within(a: map<string, Json>, b: map<string, Json>) {
    forall k :: k in a ==> k in b && b[k] == a[k]
  }

  /** The answer a finished run sends. */
  function Answer(out: Outcome): Reply {
    match out
    case Returns(r) => Classify(Invocation(Some(r.value), [], r.err))
    case Fails(e) => Classify(Invocation(None, [], Some(e)))
  }
}
