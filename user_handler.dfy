/**
  internal/infrastructure/http/user_handler.go: `GetUser` forwards the path
  parameter to the use case and either passes its error on or writes the
  user. Fiber then hands a returned error to the error handler, which gives
  the end-to-end answer of `GET /users/{id}`.
 */
module UserHandler {
  import opened Wrappers
  import opened GoValues
  import opened Domain
  import opened Backend
  import opened Logger
  import opened Fiber
  import opened ErrorHandler
  import opened UseCase

  /** What `GetUser` does: wrote a response, or returned an error for the error handler. */
  datatype Outcome = Responded(response: Response) | Failed(err: Error)

  /** The branch on the use case's result. */
  function Reply(r: UserResult): (o: Outcome)
    ensures r.err.Some? ==> o == Failed(r.err.value)
    ensures r.err.None? ==> o == Responded(Response(StatusOK, DataBody(r.user)))
  {
    if r.err.Some? then Failed(r.err.value)
    else Responded(Response(StatusOK, DataBody(r.user)))
  }

  /** `GetUser`, with `id` the value of the path parameter. */
  method GetUser(rec: Recorder, id: string, sc: SpanContext, now: Instant, elapsed: real) returns (o: Outcome)
    modifies rec
    ensures o == Reply(Lookup(id))
    ensures rec.nextSpan == old(rec.nextSpan) + 1
    ensures rec.events == old(rec.events) + CallEvents(rec.rejected, old(rec.nextSpan), id, sc, now, elapsed)
  {
    var r := GetUserByID(rec, id, sc, now, elapsed);
    if r.err.Some? {
      return Failed(r.err.value);
    }
    return Responded(Response(StatusOK, DataBody(r.user)));
  }

  /** Fiber's dispatch: a returned error goes through the error handler. */
  function Serve(o: Outcome): (resp: Response)
    ensures o.Responded? ==> resp == o.response
    ensures o.Failed? ==> Handle(o.err) == Some(resp)
  {
    match o
    case Responded(response) => response
    case Failed(err) => Handle(err).value
  }

  /** `GET /users/{id}` from the id to the response. */
  function Endpoint(id: string): (resp: Response)
    ensures resp.status == if id == "" then StatusBadRequest
                           else if id == FailingId then StatusInternalServerError
                           else if id == KnownId then StatusOK
                           else StatusNotFound
    ensures id == "" ==> resp.body == ErrorBody(ErrorPayload(InvalidInput, EmptyIdMessage, Some(map["field" := Str("id")])))
    ensures id == FailingId ==> resp == GenericResponse
    ensures id == KnownId ==> resp.body == DataBody(SampleUser)
    ensures id != "" && id != FailingId && id != KnownId ==>
              resp.body == ErrorBody(ErrorPayload(NotFound, NotFoundMessage, Some(map["id" := Str(id)])))
  {
    Serve(Reply(Lookup(id)))
  }

  /** A use-case error is passed on as it is, not wrapped. */
  lemma ErrorsPassedOnUnchanged(r: UserResult)
    requires r.err.Some?
    ensures Reply(r).Failed? && Reply(r).err == r.err.value
  {
  }

  /** The example id "999" is not found, and its id is echoed in the details. */
  lemma UnknownIdScenario()
    ensures Endpoint("999") == Response(StatusNotFound, ErrorBody(ErrorPayload(NotFound, NotFoundMessage, Some(map["id" := Str("999")]))))
  {
  }

  /** The failing id answers with the generic body: the failure's own text is not in it. */
  lemma FailureTextNotLeaked()
    ensures Endpoint(FailingId).body.error.message != FailureText
    ensures Endpoint(FailingId).body.error.code == Internal
    ensures Endpoint(FailingId).body.error.details.None?
  {
  }
}
