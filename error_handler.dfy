/**
  internal/infrastructure/http/error_handler.go: the closure returned by
  `NewErrorHandler`, which turns any error reaching the boundary into a
  status and a JSON body.
 */
module ErrorHandler {
  import opened Wrappers
  import opened GoValues
  import opened Domain
  import opened Fiber

  const UnexpectedMessage: string := "Erro inesperado"

  /** The body written for every error that is not a DomainError. */
  const GenericResponse: Response :=
    Response(StatusInternalServerError, ErrorBody(ErrorPayload(Internal, UnexpectedMessage, None)))

  /**
    The handler. `None` stands for its trailing `return nil`; the second
    guard is the complement of the first, so it is never reached.
   */
  function Handle(err: Error): (r: Option<Response>)
    ensures r.Some?
    ensures err.DomainError? ==> r.value.body == ErrorBody(ErrorPayload(err.code, err.message, Some(err.details)))
    ensures err.DomainError? && err.code == NotFound ==> r.value.status == StatusNotFound
    ensures err.DomainError? && err.code == InvalidInput ==> r.value.status == StatusBadRequest
    ensures err.DomainError? && err.code != NotFound && err.code != InvalidInput ==> r.value.status == StatusInternalServerError
    ensures !err.DomainError? ==> r.value == GenericResponse
  {
    if err.DomainError? then
      var status :=
        if err.code == NotFound then StatusNotFound
        else if err.code == InvalidInput then StatusBadRequest
        else StatusInternalServerError;
      Some(Response(status, ErrorBody(ErrorPayload(err.code, err.message, Some(err.details)))))
    else if !err.DomainError? then
      Some(GenericResponse)
    else
      None
  }

  /** 404 exactly for a DomainError with code NOT_FOUND, 400 exactly for INVALID_INPUT; everything else is 500. */
  lemma StatusClassification(err: Error)
    ensures Handle(err).value.status == StatusNotFound <==> err.DomainError? && err.code == NotFound
    ensures Handle(err).value.status == StatusBadRequest <==> err.DomainError? && err.code == InvalidInput
    ensures Handle(err).value.status == StatusInternalServerError
        <==> !err.DomainError? || (err.code != NotFound && err.code != InvalidInput)
  {
  }

  /** INTERNAL_ERROR maps to the default status 500, with the error's own code, message and details. */
  lemma InternalCodeIsDefault(message: string, details: map<string, Any>, cause: Option<Error>)
    ensures Handle(NewDomainError(Internal, message, details, cause)).value
         == Response(StatusInternalServerError, ErrorBody(ErrorPayload(Internal, message, Some(details))))
  {
  }

  /** The cause of a DomainError never reaches the response. */
  lemma CauseNeverExposed(code: ErrorCode, message: string, details: map<string, Any>, c1: Option<Error>, c2: Option<Error>)
    ensures Handle(NewDomainError(code, message, details, c1)) == Handle(NewDomainError(code, message, details, c2))
  {
  }

  /** Unclassified errors are indistinguishable at the boundary, whatever their text. */
  lemma UnclassifiedNotLeaked(a: Error, b: Error)
    requires !a.DomainError? && !b.DomainError?
    ensures Handle(a) == Handle(b)
    ensures Handle(a).value.body.error.details.None?
  {
  }
}
