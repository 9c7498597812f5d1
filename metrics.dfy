/** pkg/o11y/metrics.go: counters and histograms with labels parsed from a flat list. */
module Metrics {
  import opened GoValues
  import opened Labels
  import opened Backend

  /** `parseLabels`: walk the list two at a time, skipping non-string keys. */
  method ParseLabels(labels: seq<Any>) returns (kv: seq<KeyValue>)
    ensures kv == PairAttributes(labels)
  {
    kv := [];
    var i := 0;
    while i + 1 < |labels|
      invariant 0 <= i <= |labels|
      invariant kv + PairAttributes(labels[i..]) == PairAttributes(labels)
    {
      var step: seq<KeyValue> := [];
      if labels[i].Str? {
        var k := labels[i].s;
        var val := labels[i + 1];
        match val
        case Str(tv) => step := [StringAttr(k, tv)];
        case I64(tv) => step := [Int64Attr(k, tv)];
        case Int(tv) => step := [IntAttr(k, tv)];
        case Bool(tv) => step := [BoolAttr(k, tv)];
        case _ => step := [StringAttr(k, Sprint(val))];
      }
      PairStep(labels, i, kv, step);
      kv := kv + step;
      i := i + 2;
    }
  }

  /** What an `AddCounter` call leaves in the timeline. */
  function CounterEffects(rejected: set<string>, name: string, v: Int64, labels: seq<Any>): seq<Event>
  {
    if name in rejected then [] else [CounterAdded(name, v, PairAttributes(labels))]
  }

  /** What a `RecordHistogram` call leaves in the timeline. */
  function HistogramEffects(rejected: set<string>, name: string, v: real, labels: seq<Any>): seq<Event>
  {
    if name in rejected then [] else [HistogramRecorded(name, v, PairAttributes(labels))]
  }

  method AddCounter(rec: Recorder, name: string, v: Int64, labels: seq<Any>)
    modifies rec
    ensures rec.nextSpan == old(rec.nextSpan)
    ensures rec.events == old(rec.events) + CounterEffects(rec.rejected, name, v, labels)
  {
    if name in rec.rejected {
      return;
    }
    var attrs := ParseLabels(labels);
    rec.Emit(CounterAdded(name, v, attrs));
  }

  method RecordHistogram(rec: Recorder, name: string, v: real, labels: seq<Any>)
    modifies rec
    ensures rec.nextSpan == old(rec.nextSpan)
    ensures rec.events == old(rec.events) + HistogramEffects(rec.rejected, name, v, labels)
  {
    if name in rec.rejected {
      return;
    }
    var attrs := ParseLabels(labels);
    rec.Emit(HistogramRecorded(name, v, attrs));
  }

  /** A counter add carries the parsed labels and the delta unchanged, and is the only event. */
  lemma CounterCarriesParsedLabels(rejected: set<string>, name: string, v: Int64, labels: seq<Any>)
    requires name !in rejected
    ensures CounterEffects(rejected, name, v, labels) == [CounterAdded(name, v, PairAttributes(labels))]
    ensures |CounterEffects(rejected, name, v, labels)[0].attrs| <= |labels| / 2
  {
  }
}
