/**
 * The ordered `try`/`except` blocks of the HTTP handlers. A handler forwards
 * one call; the call returns a value or raises. Each `except` clause names an
 * exception class and a status, the first clause whose class matches wins,
 * and the HTTP error carries `str(e)` as its detail.
 */
module ExceptionMapping {
  import opened Wrappers

  /** The exceptions a forwarded call raises, by the classes the handlers distinguish. */
  datatype Exc =
    | FileNotFoundError(message: string)
    | ValueError(message: string)
    | OtherError(message: string)

  /** What a forwarded call does: return a value or raise. */
  datatype Outcome<+T> = Returned(value: T) | Raised(exc: Exc)

  /** The classes named in `except` clauses. */
  datatype ExcClass = FileNotFoundClass | ValueErrorClass | ExceptionClass

  /** `isinstance(e, c)`: `FileNotFoundError` and `ValueError` are unrelated, `Exception` catches all. */
  predicate IsInstance(e: Exc, c: ExcClass) {
    match c
    case FileNotFoundClass => e.FileNotFoundError?
    case ValueErrorClass => e.ValueError?
    case ExceptionClass => true
  }

  /** `except <cls> as e: raise HTTPException(status_code=<status>, detail=str(e))` */
  datatype Clause = Clause(cls: ExcClass, status: int)

  const NotFoundStatus := 404
  const BadRequestStatus := 400
  const ServerErrorStatus := 500

  /** The clauses of most handlers: 404, then 400, then 500. */
  const ThreeWay: seq<Clause> :=
    [Clause(FileNotFoundClass, NotFoundStatus), Clause(ValueErrorClass, BadRequestStatus), Clause(ExceptionClass, ServerErrorStatus)]

  /** The clauses of handlers without a `ValueError` branch: 404, then 500. */
  const TwoWay: seq<Clause> :=
    [Clause(FileNotFoundClass, NotFoundStatus), Clause(ExceptionClass, ServerErrorStatus)]

  /** The clauses of the generate handlers, which have no `FileNotFoundError` branch: 400, then 500. */
  const NoNotFound: seq<Clause> :=
    [Clause(ValueErrorClass, BadRequestStatus), Clause(ExceptionClass, ServerErrorStatus)]

  /** The status of the first clause that catches `e`, or `None` when no clause does. */
  function Dispatch(clauses: seq<Clause>, e: Exc): (r: Option<int>)
    ensures r.None? <==> forall i :: 0 <= i < |clauses| ==> !IsInstance(e, clauses[i].cls)
  {
    if clauses == [] then None
    else if IsInstance(e, clauses[0].cls) then Some(clauses[0].status)
    else Dispatch(clauses[1..], e)
  }

  /** The clause that answers is the earliest one whose class matches. */
  lemma {:induction false} DispatchIsFirstMatch(clauses: seq<Clause>, e: Exc)
    requires Dispatch(clauses, e).Some?
    ensures exists i :: 0 <= i < |clauses| && IsInstance(e, clauses[i].cls)
              && clauses[i].status == Dispatch(clauses, e).value
              && forall j :: 0 <= j < i ==> !IsInstance(e, clauses[j].cls)
  {
    if !IsInstance(e, clauses[0].cls) {
      DispatchIsFirstMatch(clauses[1..], e);
      var i :| 0 <= i < |clauses[1..]| && IsInstance(e, clauses[1..][i].cls)
               && clauses[1..][i].status == Dispatch(clauses[1..], e).value
               && forall j :: 0 <= j < i ==> !IsInstance(e, clauses[1..][j].cls);
      assert forall j :: 0 <= j < i + 1 ==> !IsInstance(e, clauses[j].cls) by {
        forall j | 0 <= j < i + 1 ensures !IsInstance(e, clauses[j].cls) {
          if j > 0 { assert clauses[j] == clauses[1..][j - 1]; }
        }
      }
      assert IsInstance(e, clauses[i + 1].cls) && clauses[i + 1].status == Dispatch(clauses, e).value;
    }
  }

  /** A clause list ending in `except Exception` answers every exception. */
  lemma {:induction false} CatchAllAnswersEverything(clauses: seq<Clause>, e: Exc)
    requires |clauses| > 0 && clauses[|clauses| - 1].cls == ExceptionClass
    ensures Dispatch(clauses, e).Some?
  {
    assert IsInstance(e, clauses[|clauses| - 1].cls);
  }

  /** What a handler produces: a response body, an `HTTPException`, or an exception no clause catches. */
  datatype HttpResult<+B> = Respond(body: B) | HttpError(status: int, detail: string) | Unhandled(exc: Exc)

  /**
   * The `try` block with its `except` clauses around the forwarded call's
   * outcome: a returned value is wrapped in the response envelope, an
   * exception some clause catches becomes an HTTP error carrying that
   * clause's status and the exception's message, and any other exception
   * propagates unchanged.
   */
  function Guard<T, B>(clauses: seq<Clause>, outcome: Outcome<T>, envelope: T -> B): (r: HttpResult<B>)
    ensures outcome.Returned? ==> r == Respond(envelope(outcome.value))
    ensures r.HttpError? <==> outcome.Raised? && Dispatch(clauses, outcome.exc).Some?
    ensures r.HttpError? ==> r.status == Dispatch(clauses, outcome.exc).value && r.detail == outcome.exc.message
    ensures r.Unhandled? ==> outcome == Raised(r.exc)
  {
    match outcome
    case Returned(v) => Respond(envelope(v))
    case Raised(e) =>
      match Dispatch(clauses, e)
      case Some(s) => HttpError(s, e.message)
      case None => Unhandled(e)
  }

  /** 404 for a missing file, 400 for an invalid argument, 500 for anything else. */
  ghost predicate AnswersThreeWay<T, B>(outcome: Outcome<T>, r: HttpResult<B>, envelope: T -> B) {
    match outcome
    case Returned(v) => r == Respond(envelope(v))
    case Raised(FileNotFoundError(m)) => r == HttpError(NotFoundStatus, m)
    case Raised(ValueError(m)) => r == HttpError(BadRequestStatus, m)
    case Raised(OtherError(m)) => r == HttpError(ServerErrorStatus, m)
  }

  /** 404 for a missing file, 500 for anything else, an invalid argument included. */
  ghost predicate AnswersTwoWay<T, B>(outcome: Outcome<T>, r: HttpResult<B>, envelope: T -> B) {
    match outcome
    case Returned(v) => r == Respond(envelope(v))
    case Raised(FileNotFoundError(m)) => r == HttpError(NotFoundStatus, m)
    case Raised(ValueError(m)) => r == HttpError(ServerErrorStatus, m)
    case Raised(OtherError(m)) => r == HttpError(ServerErrorStatus, m)
  }

  /** 400 for an invalid argument, 500 for anything else, a missing file included. */
  ghost predicate AnswersNoNotFound<T, B>(outcome: Outcome<T>, r: HttpResult<B>, envelope: T -> B) {
    match outcome
    case Returned(v) => r == Respond(envelope(v))
    case Raised(FileNotFoundError(m)) => r == HttpError(ServerErrorStatus, m)
    case Raised(ValueError(m)) => r == HttpError(BadRequestStatus, m)
    case Raised(OtherError(m)) => r == HttpError(ServerErrorStatus, m)
  }

  /** The three-clause block answers as the 404/400/500 table says. */
  lemma GuardThreeWay<T, B>(outcome: Outcome<T>, envelope: T -> B)
    ensures AnswersThreeWay(outcome, Guard(ThreeWay, outcome, envelope), envelope)
  {
    if outcome.Raised? {
      TablesDifferOnlyWhereAClauseIsMissing(outcome.exc);
    }
  }

  /** The two-clause block answers as the 404/500 table says. */
  lemma GuardTwoWay<T, B>(outcome: Outcome<T>, envelope: T -> B)
    ensures AnswersTwoWay(outcome, Guard(TwoWay, outcome, envelope), envelope)
  {
    if outcome.Raised? {
      TablesDifferOnlyWhereAClauseIsMissing(outcome.exc);
    }
  }

  /** The generate handlers' block answers as the 400/500 table says. */
  lemma GuardNoNotFound<T, B>(outcome: Outcome<T>, envelope: T -> B)
    ensures AnswersNoNotFound(outcome, Guard(NoNotFound, outcome, envelope), envelope)
  {
    if outcome.Raised? {
      TablesDifferOnlyWhereAClauseIsMissing(outcome.exc);
    }
  }

  /** Each table gives every outcome exactly one answer. */
  lemma AnswersAreFunctions<T, B>(outcome: Outcome<T>, r1: HttpResult<B>, r2: HttpResult<B>, envelope: T -> B)
    ensures AnswersThreeWay(outcome, r1, envelope) && AnswersThreeWay(outcome, r2, envelope) ==> r1 == r2
    ensures AnswersTwoWay(outcome, r1, envelope) && AnswersTwoWay(outcome, r2, envelope) ==> r1 == r2
    ensures AnswersNoNotFound(outcome, r1, envelope) && AnswersNoNotFound(outcome, r2, envelope) ==> r1 == r2
  {
  }

  /** The status an exception gets under each table. */
  function ThreeWayStatus(e: Exc): int {
    if e.FileNotFoundError? then NotFoundStatus else if e.ValueError? then BadRequestStatus else ServerErrorStatus
  }

  /**
   * The three tables differ exactly where a clause is missing: without the
   * `ValueError` clause an invalid argument becomes 500, and without the
   * `FileNotFoundError` clause a missing file becomes 500; every other
   * exception gets the same status under all three.
   */
  lemma TablesDifferOnlyWhereAClauseIsMissing(e: Exc)
    ensures Dispatch(ThreeWay, e) == Some(ThreeWayStatus(e))
    ensures Dispatch(TwoWay, e) == Some(if e.ValueError? then ServerErrorStatus else ThreeWayStatus(e))
    ensures Dispatch(NoNotFound, e) == Some(if e.FileNotFoundError? then ServerErrorStatus else ThreeWayStatus(e))
  {
    var catchAll := [Clause(ExceptionClass, ServerErrorStatus)];
    assert Dispatch(catchAll, e) == Some(ServerErrorStatus) by {
      assert IsInstance(e, catchAll[0].cls);
    }
    assert ThreeWay[1..][1..] == catchAll;
    assert TwoWay[1..] == catchAll;
    assert NoNotFound[1..] == catchAll;
  }

  /** No handler answers with the status of a clause it does not have. */
  lemma MissingClausesNeverAnswer(e: Exc)
    ensures Dispatch(TwoWay, e) != Some(BadRequestStatus)
    ensures Dispatch(NoNotFound, e) != Some(NotFoundStatus)
  {
    TablesDifferOnlyWhereAClauseIsMissing(e);
  }
}
