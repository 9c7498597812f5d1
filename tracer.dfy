/**
  pkg/o11y/tracer.go: `StartSpan` converts its attribute list, starts a span
  and hands back an end function guarded by a captured `ended` flag;
  `WithSpan` runs a callback inside a span.
 */
module Tracer {
  import opened Wrappers
  import opened GoValues
  import opened Domain
  import opened Labels
  import opened Backend

  /** What starting span number `span` leaves in the timeline. */
  function StartEffects(span: nat, name: string, kvs: seq<KeyValue>): seq<Event>
  {
    [SpanStarted(span, name)] + (if |kvs| > 0 then [SpanAttributesSet(span, kvs)] else [])
  }

  /** What one call of the end function leaves in the timeline, given the flag's value before the call. */
  function EndEffects(span: nat, ended: bool, err: Option<Error>): seq<Event>
  {
    if ended then []
    else match err
      case Some(e) => [SpanErrorRecorded(span, e), SpanStatusSet(span, StatusError, ErrorText(e)), SpanEnded(span)]
      case None => [SpanStatusSet(span, StatusOk, "OK"), SpanEnded(span)]
  }

  /** What successive calls with the arguments `errs` leave; the flag is set after any call. */
  function EndCalls(span: nat, ended: bool, errs: seq<Option<Error>>): seq<Event>
    decreases |errs|
  {
    if errs == [] then []
    else EndEffects(span, ended, errs[0]) + EndCalls(span, true, errs[1..])
  }

  /** The `endFn` closure and the `ended` flag it captures. */
  class EndGuard {
    const rec: Recorder
    const span: nat
    var ended: bool

    constructor (rec: Recorder, span: nat)
      ensures this.rec == rec && this.span == span && !ended
    {
      this.rec := rec;
      this.span := span;
      ended := false;
    }

    method End(err: Option<Error>)
      modifies this, rec
      ensures ended
      ensures rec.nextSpan == old(rec.nextSpan)
      ensures rec.events == old(rec.events) + EndEffects(span, old(ended), err)
    {
      if ended {
        return;
      }
      ended := true;
      if err.Some? {
        rec.Emit(SpanErrorRecorded(span, err.value));
        rec.Emit(SpanStatusSet(span, StatusError, ErrorText(err.value)));
        rec.Emit(SpanEnded(span));
        return;
      }
      rec.Emit(SpanStatusSet(span, StatusOk, "OK"));
      rec.Emit(SpanEnded(span));
    }
  }

  method StartSpan(rec: Recorder, name: string, attrs: seq<Any>) returns (end: EndGuard)
    modifies rec
    ensures fresh(end) && end.rec == rec && !end.ended
    ensures end.span == old(rec.nextSpan) && rec.nextSpan == old(rec.nextSpan) + 1
    ensures rec.events == old(rec.events) + StartEffects(end.span, name, PairAttributes(attrs))
  {
    var kvs: seq<KeyValue> := [];
    var i := 0;
    while i + 1 < |attrs|
      invariant 0 <= i <= |attrs|
      invariant kvs + PairAttributes(attrs[i..]) == PairAttributes(attrs)
      invariant unchanged(rec)
    {
      var step: seq<KeyValue> := [];
      var v := attrs[i + 1];
      if attrs[i].Str? {
        var k := attrs[i].s;
        match v
        case Str(tv) => step := [StringAttr(k, tv)];
        case I64(tv) => step := [Int64Attr(k, tv)];
        case Int(tv) => step := [IntAttr(k, tv)];
        case Bool(tv) => step := [BoolAttr(k, tv)];
        case _ => step := [StringAttr(k, Sprint(v))];
      }
      PairStep(attrs, i, kvs, step);
      kvs := kvs + step;
      i := i + 2;
    }
    assert kvs == PairAttributes(attrs) by {
      ShortListsGiveNothing(attrs[i..]);
    }
    var span := rec.NewSpan(name);
    if |kvs| > 0 {
      rec.Emit(SpanAttributesSet(span, kvs));
    }
    end := new EndGuard(rec, span);
  }

  /**
    `WithSpan`: the callback is known only by its result `fnErr`; it is
    returned unchanged and the span is ended with it.
   */
  method WithSpan(rec: Recorder, name: string, fnErr: Option<Error>) returns (err: Option<Error>)
    modifies rec
    ensures err == fnErr
    ensures rec.nextSpan == old(rec.nextSpan) + 1
    ensures rec.events == old(rec.events) + StartEffects(old(rec.nextSpan), name, []) + EndEffects(old(rec.nextSpan), false, fnErr)
  {
    var end := StartSpan(rec, name, []);
    err := fnErr;
    end.End(err);
  }

  /**
    Two calls of the end function on the same guard: by `End`'s contract
    alone, the second call emits nothing, whatever its argument.
   */
  method EndTwice(g: EndGuard, first: Option<Error>, second: Option<Error>)
    modifies g, g.rec
    ensures g.ended
    ensures g.rec.events == old(g.rec.events) + EndEffects(g.span, old(g.ended), first)
  {
    g.End(first);
    g.End(second);
  }

  /** Once the flag is set, no call does anything, whatever its argument. */
  lemma {:induction false} EndedCallsDoNothing(span: nat, errs: seq<Option<Error>>)
    ensures EndCalls(span, true, errs) == []
    decreases |errs|
  {
    if errs != [] {
      EndedCallsDoNothing(span, errs[1..]);
    }
  }

  /** Any non-empty sequence of calls has exactly the effect of its first call. */
  lemma FirstCallDecides(span: nat, errs: seq<Option<Error>>)
    requires |errs| > 0
    ensures EndCalls(span, false, errs) == EndEffects(span, false, errs[0])
  {
    EndedCallsDoNothing(span, errs[1..]);
  }

  /** Calling the end function twice is the same as calling it once. */
  lemma EndIsIdempotent(span: nat, first: Option<Error>, second: Option<Error>)
    ensures EndCalls(span, false, [first, second]) == EndCalls(span, false, [first])
  {
    FirstCallDecides(span, [first, second]);
    FirstCallDecides(span, [first]);
  }

  /** Over any non-empty sequence of calls, the span is ended exactly once, and last. */
  lemma SpanEndedExactlyOnce(span: nat, errs: seq<Option<Error>>)
    requires |errs| > 0
    ensures multiset(EndCalls(span, false, errs))[SpanEnded(span)] == 1
    ensures EndCalls(span, false, errs)[|EndCalls(span, false, errs)| - 1] == SpanEnded(span)
  {
    FirstCallDecides(span, errs);
  }

  /** A first call with an error records it and sets status Error with the error's text. */
  lemma FirstCallWithError(span: nat, e: Error)
    ensures SpanErrorRecorded(span, e) in EndEffects(span, false, Some(e))
    ensures SpanStatusSet(span, StatusError, ErrorText(e)) in EndEffects(span, false, Some(e))
    ensures forall ev :: ev in EndEffects(span, false, Some(e)) ==> !ev.SpanStatusSet? || ev.code == StatusError
  {
  }

  /** A first call without an error sets status Ok "OK" and records no error. */
  lemma FirstCallWithoutError(span: nat)
    ensures EndEffects(span, false, None) == [SpanStatusSet(span, StatusOk, "OK"), SpanEnded(span)]
    ensures forall ev :: ev in EndEffects(span, false, None) ==> !ev.SpanErrorRecorded?
  {
  }

  /** Attributes are set only when at least one attribute was produced. */
  lemma AttributesOnlyWhenProduced(span: nat, name: string, attrs: seq<Any>)
    ensures (exists ev :: ev in StartEffects(span, name, PairAttributes(attrs)) && ev.SpanAttributesSet?)
            <==> |PairAttributes(attrs)| > 0
  {
    if |PairAttributes(attrs)| > 0 {
      assert SpanAttributesSet(span, PairAttributes(attrs)) in StartEffects(span, name, PairAttributes(attrs));
    }
  }
}
