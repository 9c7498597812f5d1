/**
  The error taxonomy of internal/domain/errors.go: a closed set of codes and
  the DomainError record, together with the other errors that flow through
  the service (Go's `error` interface).
 */
module Domain {
  import opened Wrappers
  import opened GoValues

  /** `ErrorCode` is a string type: values outside the three constants exist. */
  type ErrorCode = string

  const NotFound: ErrorCode := "NOT_FOUND"
  const InvalidInput: ErrorCode := "INVALID_INPUT"
  const Internal: ErrorCode := "INTERNAL_ERROR"

  /**
    A non-nil Go `error`. `DomainError` is a `*domain.DomainError`; `Plain`
    is any other error (`errors.New`, `fmt.Errorf`, ...), known only by the
    text its `Error()` method returns. A nil error is `None` of an Option.
   */
  datatype Error =
    | DomainError(code: ErrorCode, message: string, details: map<string, Any>, cause: Option<Error>)
    | Plain(text: string)

  /** The `Error()` method of each kind of error. */
  function ErrorText(e: Error): string
  {
    match e
    case Plain(text) => text
    case DomainError(code, message, _, cause) =>
      match cause
      case Some(c) => "[" + code + "] " + message + ": " + ErrorText(c)
      case None => "[" + code + "] " + message
  }

  /** `NewDomainError`: a plain struct literal; it cannot fail and never returns nil. */
  function NewDomainError(code: ErrorCode, message: string, details: map<string, Any>, cause: Option<Error>): (e: Error)
    ensures e.DomainError?
    ensures e.code == code && e.message == message
    ensures e.details == details && e.cause == cause
  {
    DomainError(code, message, details, cause)
  }

  lemma CodesDistinct()
    ensures NotFound == "NOT_FOUND" && InvalidInput == "INVALID_INPUT" && Internal == "INTERNAL_ERROR"
    ensures NotFound != InvalidInput && NotFound != Internal && InvalidInput != Internal
  {
  }

  /** Without a cause the text is the bracketed code followed by the message. */
  lemma TextWithoutCause(code: ErrorCode, message: string, details: map<string, Any>)
    ensures ErrorText(NewDomainError(code, message, details, None)) == "[" + code + "] " + message
  {
  }

  /** With a cause the cause's own text is appended after ": ". */
  lemma TextWithCause(code: ErrorCode, message: string, details: map<string, Any>, cause: Error)
    ensures ErrorText(NewDomainError(code, message, details, Some(cause)))
         == "[" + code + "] " + message + ": " + ErrorText(cause)
  {
  }

  /** The text of an error without cause is a prefix of the text of the same error with any cause. */
  lemma TextWithoutCauseIsPrefix(code: ErrorCode, message: string, details: map<string, Any>, cause: Option<Error>)
    ensures ErrorText(NewDomainError(code, message, details, None))
         <= ErrorText(NewDomainError(code, message, details, cause))
  {
  }
}
