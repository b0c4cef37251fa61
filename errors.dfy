/** Go's error values as the core uses them: the sentinel errors of the company
    package, the driver and broker errors that pass through, and the two ways an
    error is wrapped (`fmt.Errorf` with `%w`, and the rollback message that keeps
    the rollback failure only as text). `Is` is `errors.Is`, `PgCode` is
    `errors.As(err, &pgErr)` followed by `pgErr.Code`. */
module Errors {

  datatype Option<+T> = None | Some(value: T)

  datatype Result<+T> = Success(value: T) | Failure(error: Error)

  /** The `var Err… = errors.New(…)` values the handlers compare against. */
  datatype Sentinel =
    | InvalidCompanyNameLength
    | CompanyNameAlreadyExists
    | InvalidCompanyDescriptionLength
    | InvalidEmployeesCount
    | InvalidCompanyType
    | CompanyNotFound
    | NoFieldsToUpdate
    | MissingAuthHeader
    | InvalidAuthFormat

  datatype Error =
    | Sentinel(sentinel: Sentinel)
      /** an error reported by the Postgres driver, with its SQLSTATE */
    | PgError(code: string)
      /** any other error from outside the model (network, broker, encoder) */
    | Opaque(text: string)
      /** `fmt.Errorf("<context>: %w", cause)` */
    | Wrapped(context: string, cause: Error)
      /** `fmt.Errorf("rollback failed: %v (original: %w)", rollback, original)` */
    | RollbackFailed(rollback: Error, original: Error)

  /** SQLSTATE of a unique-constraint violation (company_repo.go's ErrUniqueViolationCode). */
  const UniqueViolation: string := "23505"

  /** `errors.Is(e, target)` for a sentinel target: follows only the `%w` chain. */
  predicate Is(e: Error, s: Sentinel)
  {
    match e
    case Sentinel(x) => x == s
    case PgError(_) => false
    case Opaque(_) => false
    case Wrapped(_, cause) => Is(cause, s)
    case RollbackFailed(_, original) => Is(original, s)
  }

  /** A `%w` chain ends in at most one sentinel, so an error matches at most
      one sentinel and the order in which a caller tests them never matters. */
  lemma {:induction false} IsUnique(e: Error, s1: Sentinel, s2: Sentinel)
    requires Is(e, s1) && Is(e, s2)
    ensures s1 == s2
  {
    match e
    case Sentinel(_) =>
    case Wrapped(_, cause) => IsUnique(cause, s1, s2);
    case RollbackFailed(_, original) => IsUnique(original, s1, s2);
  }

  /** The code of the first driver error on the `%w` chain, as `errors.As` finds it. */
  function PgCode(e: Error): Option<string>
  {
    match e
    case Sentinel(_) => None
    case PgError(code) => Some(code)
    case Opaque(_) => None
    case Wrapped(_, cause) => PgCode(cause)
    case RollbackFailed(_, original) => PgCode(original)
  }

  /** `fmt.Errorf("<context>: %w", e)` on an optional error. */
  function WrapIf(context: string, e: Option<Error>): (r: Option<Error>)
    ensures r.None? <==> e.None?
    ensures r.Some? ==> forall s :: Is(r.value, s) <==> Is(e.value, s)
  {
    match e
    case None => None
    case Some(x) => Some(Wrapped(context, x))
  }
}
