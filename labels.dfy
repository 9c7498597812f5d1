/**
  The pair walk shared by `parseLabels` (pkg/o11y/metrics.go) and the
  attribute conversion of `StartSpan` (pkg/o11y/tracer.go): a flat list
  `k1, v1, k2, v2, ...` becomes OpenTelemetry attributes. `PairAttributes` is
  the specification both loops are proved against.
 */
module Labels {
  import opened GoValues

  /** An attribute as built by attribute.String, .Int64, .Int and .Bool. */
  datatype KeyValue =
    | StringAttr(key: string, s: string)
    | Int64Attr(key: string, i: Int64)
    | IntAttr(key: string, n: GoInt)
    | BoolAttr(key: string, b: bool)

  /** The value an attribute carries, back as a dynamic value. */
  function AttrValue(kv: KeyValue): Any
  {
    match kv
    case StringAttr(_, s) => Str(s)
    case Int64Attr(_, i) => I64(i)
    case IntAttr(_, n) => Int(n)
    case BoolAttr(_, b) => Bool(b)
  }

  /** The type switch on one value: the four typed cases, and `%v` for the rest. */
  function Convert(k: string, v: Any): (kv: KeyValue)
    ensures kv.key == k
    ensures Typed(v) ==> AttrValue(kv) == v
    ensures !Typed(v) ==> kv == StringAttr(k, Sprint(v))
  {
    match v
    case Str(s) => StringAttr(k, s)
    case I64(i) => Int64Attr(k, i)
    case Int(n) => IntAttr(k, n)
    case Bool(b) => BoolAttr(k, b)
    case _ => StringAttr(k, Sprint(v))
  }

  /** One (key, value) pair: no attribute unless the key is a string. */
  function PairAttribute(k: Any, v: Any): seq<KeyValue>
  {
    if k.Str? then [Convert(k.s, v)] else []
  }

  /** The attributes of a label list, pair by pair from the front. */
  function PairAttributes(labels: seq<Any>): seq<KeyValue>
    decreases |labels|
  {
    if |labels| < 2 then []
    else PairAttribute(labels[0], labels[1]) + PairAttributes(labels[2..])
  }

  /** The key and the value of the j-th pair. */
  function KeyAt(labels: seq<Any>, j: nat): Any
    requires 2 * j + 1 < |labels|
  {
    labels[2 * j]
  }

  function ValueAt(labels: seq<Any>, j: nat): Any
    requires 2 * j + 1 < |labels|
  {
    labels[2 * j + 1]
  }

  /**
    One step of a loop that walks the list two at a time: if `done` followed
    by the attributes of the rest from index i is the whole result, so is
    `done + step` followed by the attributes from index i + 2.
   */
  lemma PairStep(labels: seq<Any>, i: nat, done: seq<KeyValue>, step: seq<KeyValue>)
    requires i + 1 < |labels|
    requires done + PairAttributes(labels[i..]) == PairAttributes(labels)
    requires step == PairAttribute(labels[i], labels[i + 1])
    ensures (done + step) + PairAttributes(labels[i + 2..]) == PairAttributes(labels)
  {
  }

  /** Fewer than two elements give no attributes (the single `nil` of a call with no labels). */
  lemma ShortListsGiveNothing(labels: seq<Any>)
    requires |labels| < 2
    ensures PairAttributes(labels) == []
  {
  }

  /** At most one attribute per complete pair. */
  lemma {:induction false} AtMostOnePerPair(labels: seq<Any>)
    ensures |PairAttributes(labels)| <= |labels| / 2
  {
    if |labels| >= 2 {
      AtMostOnePerPair(labels[2..]);
    }
  }

  /** Pairs are converted independently and in order: the walk distributes over concatenation at a pair boundary. */
  lemma {:induction false} PairsInOrder(a: seq<Any>, b: seq<Any>)
    requires |a| % 2 == 0
    ensures PairAttributes(a + b) == PairAttributes(a) + PairAttributes(b)
    decreases |a|
  {
    if |a| == 0 {
      assert a + b == b;
    } else {
      assert (a + b)[2..] == a[2..] + b;
      PairsInOrder(a[2..], b);
    }
  }

  /** A trailing unpaired element is ignored. */
  lemma TrailingElementIgnored(labels: seq<Any>, x: Any)
    requires |labels| % 2 == 0
    ensures PairAttributes(labels + [x]) == PairAttributes(labels)
  {
    PairsInOrder(labels, [x]);
  }

  /** A pair whose key is not a string produces nothing; the walk goes on with the next pair. */
  lemma NonStringKeySkipped(k: Any, v: Any, rest: seq<Any>)
    requires !k.Str?
    ensures PairAttributes([k, v] + rest) == PairAttributes(rest)
  {
  }

  /** With every key a string, the j-th attribute is exactly the conversion of the j-th pair. */
  lemma {:induction false} StringKeysKeepEveryPair(labels: seq<Any>)
    requires forall j: nat :: 2 * j + 1 < |labels| ==> KeyAt(labels, j).Str?
    ensures |PairAttributes(labels)| == |labels| / 2
    ensures forall j: nat :: 2 * j + 1 < |labels| ==>
              PairAttributes(labels)[j] == Convert(KeyAt(labels, j).s, ValueAt(labels, j))
    decreases |labels|
  {
    if |labels| >= 2 {
      var rest := labels[2..];
      forall j: nat | 2 * j + 1 < |rest|
        ensures KeyAt(rest, j).Str?
      {
        assert KeyAt(rest, j) == KeyAt(labels, j + 1);
      }
      StringKeysKeepEveryPair(rest);
      assert KeyAt(labels, 0).Str?;
      forall j: nat | 2 * j + 1 < |labels|
        ensures PairAttributes(labels)[j] == Convert(KeyAt(labels, j).s, ValueAt(labels, j))
      {
        if j > 0 {
          assert KeyAt(labels, j) == KeyAt(rest, j - 1);
          assert ValueAt(labels, j) == ValueAt(rest, j - 1);
        }
      }
    }
  }
}
