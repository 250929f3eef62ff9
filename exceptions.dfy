/**
 * The domain exceptions of package `exceptions` and the mapping from an
 * `error` to an HTTP status code.
 *
 * Go's `error` is an interface; the four exception structs of the package
 * are its implementations that the mapping knows about. Every other
 * implementation is modelled by `OtherError`, and an error that wraps another
 * one (as `fmt.Errorf("%w", …)` does) by `WrappedError`. A nil `error` is
 * `None`.
 */
module Exceptions {
  import opened Wrappers

  datatype Exception =
    | BusinessException(s: string)
    | ServiceException(s: string)
    | TechnicalException(s: string)
    | RepositoryNoDataFoundException(s: string)
    | OtherError(s: string)
    | WrappedError(s: string, inner: Exception)
  {
    /** The `Error()` method of every exception type: the stored message. */
    function Error(): (msg: string)
      ensures msg == s
    {
      s
    }

    /** The exception types declared in this package. */
    predicate IsDomainException() {
      BusinessException? || ServiceException? || TechnicalException? || RepositoryNoDataFoundException?
    }
  }

  function NewBusinessException(s: string): (e: Exception)
    ensures e.BusinessException?
    ensures e.Error() == s
  {
    BusinessException(s)
  }

  function NewServiceException(s: string): (e: Exception)
    ensures e.ServiceException?
    ensures e.Error() == s
  {
    ServiceException(s)
  }

  function NewTechnicalException(s: string): (e: Exception)
    ensures e.TechnicalException?
    ensures e.Error() == s
  {
    TechnicalException(s)
  }

  function NewRepositoryNoDataFoundException(s: string): (e: Exception)
    ensures e.RepositoryNoDataFoundException?
    ensures e.Error() == s
  {
    RepositoryNoDataFoundException(s)
  }

  /**
   * Each constructor keeps its message recoverable: two exceptions of one
   * kind report the same `Error()` exactly when they were built from the
   * same message.
   */
  lemma ErrorRecoversMessage(s: string, t: string)
    ensures NewBusinessException(s).Error() == NewBusinessException(t).Error() <==> s == t
    ensures NewServiceException(s).Error() == NewServiceException(t).Error() <==> s == t
    ensures NewTechnicalException(s).Error() == NewTechnicalException(t).Error() <==> s == t
    ensures NewRepositoryNoDataFoundException(s).Error() == NewRepositoryNoDataFoundException(t).Error() <==> s == t
  {
  }

  /** The four exception kinds never collide, even when built from the same message. */
  lemma KindsDistinct(s: string)
    ensures NewBusinessException(s) != NewServiceException(s)
    ensures NewBusinessException(s) != NewTechnicalException(s)
    ensures NewBusinessException(s) != NewRepositoryNoDataFoundException(s)
    ensures NewServiceException(s) != NewTechnicalException(s)
    ensures NewServiceException(s) != NewRepositoryNoDataFoundException(s)
    ensures NewTechnicalException(s) != NewRepositoryNoDataFoundException(s)
  {
  }

  /** HTTP status classes, as the codes returned below fall into them. */
  predicate IsClientError(code: int) { 400 <= code < 500 }
  predicate IsServerError(code: int) { 500 <= code < 600 }

  /**
   * `GetHTTPStatusCode`: nil gives 0; then a type switch on the dynamic type
   * of the error. Only the outermost type is inspected, so a wrapped error
   * takes the default branch.
   */
  function GetHTTPStatusCode(err: Option<Exception>): (code: int)
    ensures code == 0 || code == 400 || code == 404 || code == 500
    ensures code == 0 <==> err.None?
    ensures IsClientError(code) <==>
              err.Some? && (err.value.BusinessException? || err.value.ServiceException?
                            || err.value.RepositoryNoDataFoundException?)
    ensures IsServerError(code) <==>
              err.Some? && !(err.value.BusinessException? || err.value.ServiceException?
                             || err.value.RepositoryNoDataFoundException?)
    ensures code == 404 <==> err.Some? && err.value.RepositoryNoDataFoundException?
  {
    match err
    case None => 0
    case Some(e) =>
      match e
      case BusinessException(_) => 400
      case RepositoryNoDataFoundException(_) => 404
      case ServiceException(_) => 400
      case TechnicalException(_) => 500
      case _ => 500
  }

  /** The code of each constructor's exception, whatever its message. */
  lemma StatusOfConstructors(s: string)
    ensures GetHTTPStatusCode(Some(NewBusinessException(s))) == 400
    ensures GetHTTPStatusCode(Some(NewServiceException(s))) == 400
    ensures GetHTTPStatusCode(Some(NewRepositoryNoDataFoundException(s))) == 404
    ensures GetHTTPStatusCode(Some(NewTechnicalException(s))) == 500
  {
  }

  /** An error of a type the switch does not list maps to 500. */
  lemma UnlistedErrorsAreServerErrors(e: Exception)
    requires !e.IsDomainException()
    ensures GetHTTPStatusCode(Some(e)) == 500
  {
  }

  /** Wrapping hides the inner error's kind: even a wrapped not-found error maps to 500. */
  lemma WrappingIsNotUnwrapped(s: string, inner: Exception)
    ensures GetHTTPStatusCode(Some(WrappedError(s, inner))) == 500
  {
  }

  /** The code depends only on the kind, never on the message. */
  lemma StatusIgnoresMessage(e: Exception, t: string)
    ensures GetHTTPStatusCode(Some(e)) == GetHTTPStatusCode(Some(e.(s := t)))
  {
  }
}
