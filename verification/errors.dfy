/**
 * Go error values as the backend builds them: sentinel errors from
 * internal/store/errors.go, domain.ErrValidation and service.ErrNotAssignee,
 * chains built with `fmt.Errorf` and `%w`, and flat messages built with
 * `errors.New` or `fmt.Errorf` without `%w`.
 */
module Errors {

  datatype Error =
    | SessionNotFound
    | StateNotFound
    | UserNotFound
    | TaskNotFound
    | FolderNotFound
    | Validation
    | NotAssignee
      /** `fmt.Errorf(prefix + "%w" + suffix, cause)`: keeps the cause visible to `errors.Is`. */
    | Wrapped(prefix: string, cause: Error, suffix: string)
      /** An error with no cause chain: a backend failure, `errors.New`, or `%s` formatting. */
    | Failure(message: string)

  /** `fmt.Errorf(context + ": %w", cause)`. */
  function Wrap(context: string, cause: Error): Error {
    Wrapped(context + ": ", cause, "")
  }

  /** `fmt.Errorf("%w: " + detail, cause)`. */
  function Annotate(cause: Error, detail: string): Error {
    Wrapped("", cause, ": " + detail)
  }

  /** The sentinels that `errors.Is` may be asked about. */
  predicate IsSentinel(e: Error) {
    !e.Wrapped? && !e.Failure?
  }

  /** `errors.Is(e, target)`: the target appears somewhere along the `%w` chain. */
  predicate Is(e: Error, target: Error) {
    e == target || (e.Wrapped? && Is(e.cause, target))
  }

  /** `err.Error()`. The text of `store.ErrFolderNotFound` is not part of this model and is assumed. */
  function Message(e: Error): string {
    match e
    case SessionNotFound => "session not found"
    case StateNotFound => "state not found"
    case UserNotFound => "user not found"
    case TaskNotFound => "task not found"
    case FolderNotFound => "folder not found"
    case Validation => "validation error"
    case NotAssignee => "user is not the assignee"
    case Wrapped(prefix, cause, suffix) => prefix + Message(cause) + suffix
    case Failure(message) => message
  }

  /** Wrapping, in either position, never hides a sentinel and never invents one. */
  lemma WrapKeepsSentinels(context: string, e: Error, t: Error)
    requires IsSentinel(t)
    ensures Is(Wrap(context, e), t) <==> Is(e, t)
    ensures Is(Annotate(e, context), t) <==> Is(e, t)
  {
  }

  /** The wrapped text ends with the cause's own text, so log lines keep the root cause. */
  lemma WrapKeepsMessage(context: string, e: Error)
    ensures Message(Wrap(context, e)) == context + ": " + Message(e)
    ensures Message(Annotate(e, context)) == Message(e) + ": " + context
  {
  }
}
