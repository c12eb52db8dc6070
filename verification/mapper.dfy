/** The family mapper of `parser.go`: it turns one tokenized metric family into
    a `MetricFamily` whose series are string-valued entries of one of three
    shapes, chosen by the family's type. */
module Mapper {
  import opened Wrappers
  import Overwrite
  import Dto

  /** The three shapes a series can take (the Go `Metric`, `Summary` and
      `Histogram` structs behind the family's `[]interface{}`). */
  datatype Entry =
    | Metric(labels: map<string, string>, value: string)
    | Summary(labels: map<string, string>, quantiles: map<string, string>, count: string, sum: string)
    | Histogram(labels: map<string, string>, buckets: map<string, string>, count: string, sum: string)

  datatype MetricFamily = MetricFamily(name: string, help: string, typeName: string, metrics: seq<Entry>)

  // Keys and values of the quantile and bucket overwrite loops; the label
  // loop uses `Dto.LabelName` and `Dto.LabelValue` directly.

  function QuantileKey(p: Dto.Printer): Dto.Quantile -> string {
    (q: Dto.Quantile) => p.show(Dto.NumOr(p, q.quantile))
  }

  function QuantileVal(p: Dto.Printer): Dto.Quantile -> string {
    (q: Dto.Quantile) => p.show(Dto.NumOr(p, q.value))
  }

  function BucketKey(p: Dto.Printer): Dto.Bucket -> string {
    (b: Dto.Bucket) => p.show(Dto.NumOr(p, b.upperBound))
  }

  function BucketVal(p: Dto.Printer): Dto.Bucket -> string {
    (b: Dto.Bucket) => p.show(Dto.NumOr(p, b.cumulativeCount))
  }

  /** The label map of a series: every label name is a key, and a name that
      repeats keeps the value of its last pair. */
  function MakeLabels(m: Dto.Metric): (r: map<string, string>)
    ensures forall k :: k in r <==> exists i :: 0 <= i < |m.labels| && Dto.LabelName(m.labels[i]) == k
    ensures forall i :: 0 <= i < |m.labels| && Overwrite.IsLast(m.labels, Dto.LabelName, i) ==>
      r[Dto.LabelName(m.labels[i])] == Dto.LabelValue(m.labels[i])
  {
    Overwrite.Assign(m.labels, Dto.LabelName, Dto.LabelValue)
  }

  /** The quantile map of a summary series: keyed by the printed quantile
      level, holding the printed value of the last quantile with that level.
      Reading `Quantile` through an absent summary payload dereferences a nil
      pointer, so the payload is required. */
  function MakeQuantiles(p: Dto.Printer, m: Dto.Metric): (r: map<string, string>)
    requires m.summary.Some?
    ensures var qs := m.summary.value.quantile;
      forall k :: k in r <==> exists i :: 0 <= i < |qs| && p.show(Dto.NumOr(p, qs[i].quantile)) == k
    ensures var qs := m.summary.value.quantile;
      forall i :: 0 <= i < |qs| && Overwrite.IsLast(qs, QuantileKey(p), i) ==>
        r[p.show(Dto.NumOr(p, qs[i].quantile))] == p.show(Dto.NumOr(p, qs[i].value))
  {
    Overwrite.Assign(m.summary.value.quantile, QuantileKey(p), QuantileVal(p))
  }

  /** The bucket map of a histogram series: keyed by the printed upper bound,
      holding the printed cumulative count of the last bucket with that bound.
      Reading `Bucket` through an absent histogram payload dereferences a nil
      pointer, so the payload is required. */
  function MakeBuckets(p: Dto.Printer, m: Dto.Metric): (r: map<string, string>)
    requires m.histogram.Some?
    ensures var bs := m.histogram.value.bucket;
      forall k :: k in r <==> exists i :: 0 <= i < |bs| && p.show(Dto.NumOr(p, bs[i].upperBound)) == k
    ensures var bs := m.histogram.value.bucket;
      forall i :: 0 <= i < |bs| && Overwrite.IsLast(bs, BucketKey(p), i) ==>
        r[p.show(Dto.NumOr(p, bs[i].upperBound))] == p.show(Dto.NumOr(p, bs[i].cumulativeCount))
  {
    Overwrite.Assign(m.histogram.value.bucket, BucketKey(p), BucketVal(p))
  }

  /** The scalar of a simple series: the gauge if present, else the counter,
      else the untyped value, else zero. It is the first-present reading of
      the list gauge, counter, untyped. */
  function GetValue(p: Dto.Printer, m: Dto.Metric): (r: Dto.Num)
    ensures r == FirstPresent(p, [m.gauge, m.counter, m.untyped])
  {
    FirstPresentOfThree(p, m.gauge, m.counter, m.untyped);
    if m.gauge.Some? then Dto.ScalarValue(p, m.gauge)
    else if m.counter.Some? then Dto.ScalarValue(p, m.counter)
    else if m.untyped.Some? then Dto.ScalarValue(p, m.untyped)
    else p.zero
  }

  /** A reference reading of the precedence: the value of the first present
      payload in the list, or zero when none is. */
  function FirstPresent(p: Dto.Printer, payloads: seq<Option<Dto.Scalar>>): Dto.Num {
    if payloads == [] then p.zero
    else if payloads[0].Some? then Dto.ScalarValue(p, payloads[0])
    else FirstPresent(p, payloads[1..])
  }

  /** The first-present reading of a three-element list, case by case. */
  lemma FirstPresentOfThree(p: Dto.Printer, a: Option<Dto.Scalar>, b: Option<Dto.Scalar>, c: Option<Dto.Scalar>)
    ensures FirstPresent(p, [a, b, c]) ==
      if a.Some? then Dto.ScalarValue(p, a)
      else if b.Some? then Dto.ScalarValue(p, b)
      else if c.Some? then Dto.ScalarValue(p, c)
      else p.zero
  {
    var ps := [a, b, c];
    assert ps[1..] == [b, c];
    assert ps[1..][1..] == [c];
    assert ps[1..][1..][1..] == [];
    assert FirstPresent(p, [c]) == (if c.Some? then Dto.ScalarValue(p, c) else p.zero);
    assert FirstPresent(p, [b, c]) == (if b.Some? then Dto.ScalarValue(p, b) else FirstPresent(p, [c]));
  }

  /** Once a payload is present, the later ones are never read. */
  lemma GetValueIgnoresLaterPayloads(p: Dto.Printer, m: Dto.Metric, c: Option<Dto.Scalar>, u: Option<Dto.Scalar>)
    ensures m.gauge.Some? ==> GetValue(p, m.(counter := c, untyped := u)) == GetValue(p, m)
    ensures m.counter.Some? ==> GetValue(p, m.(untyped := u)) == GetValue(p, m)
    ensures m.gauge.None? && m.counter.None? && m.untyped.None? ==> GetValue(p, m) == p.zero
  {
  }

  /** A series carries the payload its family type reads through a pointer. */
  predicate HasPayloadFor(t: Dto.MetricType, m: Dto.Metric) {
    && (t == Dto.SUMMARY ==> m.summary.Some?)
    && (t == Dto.HISTOGRAM ==> m.histogram.Some?)
  }

  /** Every series of the family carries the payload its type needs. The
      text tokenizer builds families this way. */
  predicate Mappable(f: Dto.MetricFamily) {
    forall i :: 0 <= i < |f.metric| ==> HasPayloadFor(Dto.GetType(f), f.metric[i])
  }

  /** The entry one series of a family of type `t` maps to. The histogram's
      `sum` is read from the series' summary payload, not its histogram
      payload. */
  function MakeEntry(p: Dto.Printer, t: Dto.MetricType, m: Dto.Metric): (r: Entry)
    requires HasPayloadFor(t, m)
    ensures r.labels == MakeLabels(m)
    ensures r.Summary? <==> t == Dto.SUMMARY
    ensures r.Histogram? <==> t == Dto.HISTOGRAM
    ensures r.Metric? ==> r.value == p.show(FirstPresent(p, [m.gauge, m.counter, m.untyped]))
    ensures !r.Metric? ==> r.sum == p.show(Dto.SummarySampleSum(p, m))
  {
    if t == Dto.SUMMARY then
      Summary(MakeLabels(m), MakeQuantiles(p, m),
              p.show(Dto.SummarySampleCount(p, m)), p.show(Dto.SummarySampleSum(p, m)))
    else if t == Dto.HISTOGRAM then
      Histogram(MakeLabels(m), MakeBuckets(p, m),
                p.show(Dto.HistogramSampleCount(p, m)), p.show(Dto.SummarySampleSum(p, m)))
    else
      Metric(MakeLabels(m), p.show(GetValue(p, m)))
  }

  /** `newMetricFamily`: name and help copied, type named, and one entry per
      series, in order, whose shape follows the family type alone. */
  function NewMetricFamily(p: Dto.Printer, f: Dto.MetricFamily): (r: MetricFamily)
    requires Mappable(f)
    ensures r.name == (if f.name.Some? then f.name.value else "")
    ensures r.help == (if f.help.Some? then f.help.value else "")
    ensures r.typeName == Dto.TypeName(Dto.GetType(f))
    ensures |r.metrics| == |f.metric|
    ensures forall i :: 0 <= i < |f.metric| ==> r.metrics[i] == MakeEntry(p, Dto.GetType(f), f.metric[i])
    ensures forall i :: 0 <= i < |r.metrics| ==> (r.metrics[i].Summary? <==> Dto.GetType(f) == Dto.SUMMARY)
    ensures forall i :: 0 <= i < |r.metrics| ==> (r.metrics[i].Histogram? <==> Dto.GetType(f) == Dto.HISTOGRAM)
    ensures forall i :: 0 <= i < |r.metrics| ==>
      (r.metrics[i].Metric? <==> Dto.GetType(f) != Dto.SUMMARY && Dto.GetType(f) != Dto.HISTOGRAM)
  {
    var t := Dto.GetType(f);
    MetricFamily(Dto.GetName(f), Dto.GetHelp(f), Dto.TypeName(t),
                 seq(|f.metric|, i requires 0 <= i < |f.metric| && Mappable(f) => MakeEntry(p, t, f.metric[i])))
  }

  /** A summary series keeps its labels, quantiles, and the printed count and
      sum of its summary payload. */
  lemma SummaryEntryFields(p: Dto.Printer, f: Dto.MetricFamily, i: int)
    requires Mappable(f) && Dto.GetType(f) == Dto.SUMMARY && 0 <= i < |f.metric|
    ensures var m, e := f.metric[i], NewMetricFamily(p, f).metrics[i];
      && e.labels == MakeLabels(m)
      && e.quantiles == MakeQuantiles(p, m)
      && e.count == p.show(Dto.NumOr(p, m.summary.value.sampleCount))
      && e.sum == p.show(Dto.NumOr(p, m.summary.value.sampleSum))
  {
  }

  /** A histogram series takes its count from the histogram payload but its
      sum from the summary payload: the printed zero when there is none. */
  lemma HistogramEntryFields(p: Dto.Printer, f: Dto.MetricFamily, i: int)
    requires Mappable(f) && Dto.GetType(f) == Dto.HISTOGRAM && 0 <= i < |f.metric|
    ensures var m, e := f.metric[i], NewMetricFamily(p, f).metrics[i];
      && e.labels == MakeLabels(m)
      && e.buckets == MakeBuckets(p, m)
      && e.count == p.show(Dto.NumOr(p, m.histogram.value.sampleCount))
      && e.sum == (if m.summary.Some? then p.show(Dto.NumOr(p, m.summary.value.sampleSum)) else p.show(p.zero))
  {
  }

  /** The histogram payload's own sample sum never reaches the entry. */
  lemma HistogramSumIgnored(p: Dto.Printer, m: Dto.Metric, s: Option<Dto.Num>)
    requires m.histogram.Some?
    ensures var m' := m.(histogram := Some(m.histogram.value.(sampleSum := s)));
      MakeEntry(p, Dto.HISTOGRAM, m') == MakeEntry(p, Dto.HISTOGRAM, m)
  {
  }

  /** A simple series holds the printed value of its first present payload. */
  lemma MetricEntryValue(p: Dto.Printer, f: Dto.MetricFamily, i: int)
    requires Mappable(f) && Dto.GetType(f) != Dto.SUMMARY && Dto.GetType(f) != Dto.HISTOGRAM
    requires 0 <= i < |f.metric|
    ensures var m, e := f.metric[i], NewMetricFamily(p, f).metrics[i];
      && e.labels == MakeLabels(m)
      && e.value == p.show(FirstPresent(p, [m.gauge, m.counter, m.untyped]))
  {
  }
}
