/** The error model of a chain: one structured error per failed chain, carrying
    the stage that failed, the element it failed on, the underlying cause and
    the call site that is blamed. */
module Failures {
  import opened Strings

  /** An opaque handle to an element of the remote page. */
  type ElemId = nat

  datatype Option<+T> = None | Some(value: T)

  /** A driver answer: a value, or the error the driver returned instead. */
  datatype Result<+T> = Ok(value: T) | Fail(cause: Cause)

  /** The `error` value wrapped by a chain error. Driver errors and messages of
      user checks are opaque `Msg`s; the variants below are the ones the chain
      builds itself, keeping their structure rather than their exact text. */
  datatype Cause =
    | Msg(text: string)
      // "No elements exist for the selector ..."
    | NoElements(selector: string)
      // "Selector ... returned multiple elements but .Any() or .All() weren't specified"
    | Ambiguous(selector: string)
      // "Not All elements passed: <cause>"
    | NotAll(inner: Cause)
      // "None of the elements passed: <errors>", wrapping the aggregate of per-element errors
    | NoneOf(subs: seq<ChainError>)
      // "Invalid count for selector ... wanted n got m"
    | CountMismatch(selector: string, want: int, got: nat)
      // a title or element string comparison that failed
    | Mismatch(subject: string, kind: MatchKind, expected: string, actual: string)
    | PathMismatch(expected: string, actual: string)
    | FragmentMismatch(expected: string, actual: string)
    | NoQueryValue(key: string, value: string, values: seq<string>)
    | NoQueryKey(key: string)
      // a chain error used as the cause of another (a failed child selection)
    | Nested(error: ChainError)
      // Go's nil error
    | NilCause

  /** A failure recorded on a chain. */
  datatype ChainError = ChainError(stage: string, element: Option<ElemId>, cause: Cause, caller: string)

  /** The chain error a failing step records, if the step's check failed. */
  function Raise(stage: string, element: Option<ElemId>, cause: Option<Cause>, site: string): (r: Option<ChainError>)
    ensures r.None? <==> cause.None?
    ensures r.Some? ==> r.value == ChainError(stage, element, cause.value, site)
  {
    match cause
    case None => None
    case Some(c) => Some(ChainError(stage, element, c, site))
  }

  /** Stamping changes only the blamed call site: stage, element and cause are
      kept, and stamping again leaves only the last site. */
  lemma StampLaw(err: Option<ChainError>, s1: string, s2: string)
    ensures Stamp(err, s1).Some? ==>
              var e := Stamp(err, s1).value;
              e.stage == err.value.stage && e.element == err.value.element && e.cause == err.value.cause && e.caller == s1
    ensures Stamp(Stamp(err, s1), s2) == Stamp(err, s2)
  {
  }

  /** A retry that timed out keeps its last error and blames the retry's own call site. */
  function Stamp(err: Option<ChainError>, site: string): (r: Option<ChainError>)
    ensures r.None? <==> err.None?
    ensures r.Some? ==> r.value == err.value.(caller := site)
  {
    match err
    case None => None
    case Some(e) => Some(e.(caller := site))
  }
}
