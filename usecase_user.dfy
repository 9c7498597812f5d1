/**
  internal/application/usecase/user.go: `GetUserByID`, a four-way decision
  on the id, wrapped in a span, a call counter, a log line and, on success
  only, a duration histogram.
 */
module UseCase {
  import opened Wrappers
  import opened GoValues
  import opened Domain
  import opened Labels
  import opened Backend
  import opened Metrics
  import opened Logger

  const SpanName: string := "create_user_usecase.execute"
  const CallsCounter: string := "user_usecase_calls_total"
  const FetchHistogram: string := "user_fetch_duration_seconds"
  const CalledMessage: string := "GetUserByID called"
  const EmptyIdMessage: string := "ID do usuário não pode ser vazio"
  const FailingId: string := "500"
  const FailureText: string := "deu ruim"
  const KnownId: string := "123"
  const NotFoundMessage: string := "Usuário não encontrado"
  const MissingRecordText: string := "registro ausente no banco"
  const SampleUser: string := "Usuário de exemplo"

  /** The (string, error) pair the use case returns. */
  datatype UserResult = UserResult(user: string, err: Option<Error>)

  /** The decision on the id. */
  function Lookup(id: string): (r: UserResult)
    ensures r.err.None? <==> id == KnownId
    ensures r.err.None? ==> r.user == SampleUser
    ensures r.err.Some? ==> r.user == ""
    ensures id == "" ==> r.err == Some(NewDomainError(InvalidInput, EmptyIdMessage, map["field" := Str("id")], None))
    ensures id == FailingId ==> r.err == Some(Plain(FailureText))
    ensures id != "" && id != FailingId && id != KnownId ==>
              r.err == Some(NewDomainError(NotFound, NotFoundMessage, map["id" := Str(id)], Some(Plain(MissingRecordText))))
  {
    if id == "" then
      UserResult("", Some(NewDomainError(InvalidInput, EmptyIdMessage, map["field" := Str("id")], None)))
    else if id == FailingId then
      UserResult("", Some(Plain(FailureText)))
    else if id != KnownId then
      UserResult("", Some(NewDomainError(NotFound, NotFoundMessage, map["id" := Str(id)], Some(Plain(MissingRecordText)))))
    else
      UserResult(SampleUser, None)
  }

  /** Everything one call leaves in the timeline, for span number `span`. */
  function CallEvents(rejected: set<string>, span: nat, id: string, sc: SpanContext, now: Instant, elapsed: real): seq<Event>
  {
    [SpanStarted(span, SpanName)]
    + CounterEffects(rejected, CallsCounter, 1, [Nil])
    + [LogEmitted(LevelDebug, CalledMessage, RecordAttrs([Field("id", Str(id))], sc, None, LevelDebug, now))]
    + (if id == "" then [SpanAttributesSet(span, [StringAttr("error", EmptyIdMessage)])] else [])
    + (if id == KnownId then HistogramEffects(rejected, FetchHistogram, elapsed, [Nil]) else [])
    + [SpanEnded(span)]
  }

  /**
    `GetUserByID`. The clock (`now`, and the measured `elapsed` time) and
    the span context seen by the logger are parameters. The deferred
    `span.End()` is the one statement after the decision.
   */
  method GetUserByID(rec: Recorder, id: string, sc: SpanContext, now: Instant, elapsed: real) returns (r: UserResult)
    modifies rec
    ensures r == Lookup(id)
    ensures rec.nextSpan == old(rec.nextSpan) + 1
    ensures rec.events == old(rec.events) + CallEvents(rec.rejected, old(rec.nextSpan), id, sc, now, elapsed)
  {
    var span := rec.NewSpan(SpanName);
    AddCounter(rec, CallsCounter, 1, [Nil]);
    Info(rec, sc, CalledMessage, [Field("id", Str(id))], now);
    if id == "" {
      rec.Emit(SpanAttributesSet(span, [StringAttr("error", EmptyIdMessage)]));
      r := UserResult("", Some(NewDomainError(InvalidInput, EmptyIdMessage, map["field" := Str("id")], None)));
    } else if id == FailingId {
      r := UserResult("", Some(Plain(FailureText)));
    } else if id != KnownId {
      r := UserResult("", Some(NewDomainError(NotFound, NotFoundMessage, map["id" := Str(id)], Some(Plain(MissingRecordText)))));
    } else {
      RecordHistogram(rec, FetchHistogram, elapsed, [Nil]);
      r := UserResult(SampleUser, None);
    }
    rec.Emit(SpanEnded(span));
  }

  /** The `nil` label list of the counter and the histogram parses to no attributes. */
  lemma NilLabelsGiveNothing()
    ensures PairAttributes([Nil]) == []
  {
  }

  /** Every call, whatever the id, adds exactly one counter event, with delta 1, right after the span starts. */
  lemma OneCounterPerCall(rejected: set<string>, span: nat, id: string, sc: SpanContext, now: Instant, elapsed: real)
    requires CallsCounter !in rejected
    ensures var evs := CallEvents(rejected, span, id, sc, now, elapsed);
            && evs[1] == CounterAdded(CallsCounter, 1, [])
            && forall k :: 0 <= k < |evs| && evs[k].CounterAdded? ==> k == 1
  {
    NilLabelsGiveNothing();
  }

  /** The histogram is recorded exactly on the success path. */
  lemma HistogramOnlyOnSuccess(rejected: set<string>, span: nat, id: string, sc: SpanContext, now: Instant, elapsed: real)
    requires FetchHistogram !in rejected
    ensures (HistogramRecorded(FetchHistogram, elapsed, []) in CallEvents(rejected, span, id, sc, now, elapsed)) <==> id == KnownId
    ensures forall ev :: ev in CallEvents(rejected, span, id, sc, now, elapsed) && ev.HistogramRecorded? ==> id == KnownId
  {
    NilLabelsGiveNothing();
  }

  /** On every path the span that was started first is ended, once, as the last event. */
  lemma SpanEndedOnEveryPath(rejected: set<string>, span: nat, id: string, sc: SpanContext, now: Instant, elapsed: real)
    ensures var evs := CallEvents(rejected, span, id, sc, now, elapsed);
            && evs[0] == SpanStarted(span, SpanName)
            && evs[|evs| - 1] == SpanEnded(span)
            && forall k :: 0 <= k < |evs| - 1 ==> evs[k] != SpanEnded(span)
  {
  }

  /** The call is logged at the Debug level, since `Info` logs at Debug, with the id as its first attribute. */
  lemma CallLoggedAtDebug(rejected: set<string>, span: nat, id: string, sc: SpanContext, now: Instant, elapsed: real)
    ensures var evs := CallEvents(rejected, span, id, sc, now, elapsed);
            var k := if CallsCounter in rejected then 1 else 2;
            && evs[k].LogEmitted? && evs[k].level == LevelDebug && evs[k].msg == CalledMessage
            && evs[k].logAttrs[0] == LogAttr("id", AnyValue(Str(id)))
  {
  }
}
