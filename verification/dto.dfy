/** The tokenized input: the protobuf metric-family records of the Prometheus
    client model, as the text-exposition tokenizer hands them over. Every
    optional protobuf field is an `Option`, and the getters below are the
    nil-safe protobuf getters, which return the field's zero value when the
    field is absent. */
module Dto {
  import opened Wrappers
  import Decimal

  /** A sample number (a float64 value or a uint64 count). Its arithmetic plays
      no part in the mapping, so it is left opaque. */
  type Num(==)

  /** `fmt.Sprint` on sample numbers, and the zero that a nil-safe getter
      returns for an absent number. Both are taken as given. */
  datatype Printer = Printer(show: Num -> string, zero: Num)

  /** The protobuf enum `MetricType`: a 32-bit code with five declared names. */
  newtype MetricType = x: int | -0x8000_0000 <= x < 0x8000_0000

  const COUNTER: MetricType := 0
  const GAUGE: MetricType := 1
  const SUMMARY: MetricType := 2
  const UNTYPED: MetricType := 3
  const HISTOGRAM: MetricType := 4

  datatype LabelPair = LabelPair(name: Option<string>, value: Option<string>)

  /** The payload of a gauge, counter or untyped sample: one value. */
  datatype Scalar = Scalar(value: Option<Num>)

  datatype Quantile = Quantile(quantile: Option<Num>, value: Option<Num>)

  datatype Summary = Summary(sampleCount: Option<Num>, sampleSum: Option<Num>, quantile: seq<Quantile>)

  datatype Bucket = Bucket(cumulativeCount: Option<Num>, upperBound: Option<Num>)

  datatype Histogram = Histogram(sampleCount: Option<Num>, sampleSum: Option<Num>, bucket: seq<Bucket>)

  /** One series of a family: its labels and whichever payloads are present. */
  datatype Metric = Metric(
    labels: seq<LabelPair>,
    gauge: Option<Scalar>,
    counter: Option<Scalar>,
    summary: Option<Summary>,
    untyped: Option<Scalar>,
    histogram: Option<Histogram>)

  datatype MetricFamily = MetricFamily(
    name: Option<string>,
    help: Option<string>,
    metricType: Option<MetricType>,
    metric: seq<Metric>)

  // Nil-safe getters.

  function GetName(f: MetricFamily): string {
    f.name.GetOr("")
  }

  function GetHelp(f: MetricFamily): string {
    f.help.GetOr("")
  }

  /** An absent type reads as the enum's default, COUNTER. */
  function GetType(f: MetricFamily): MetricType {
    f.metricType.GetOr(COUNTER)
  }

  function LabelName(lp: LabelPair): string {
    lp.name.GetOr("")
  }

  function LabelValue(lp: LabelPair): string {
    lp.value.GetOr("")
  }

  function NumOr(p: Printer, n: Option<Num>): Num {
    n.GetOr(p.zero)
  }

  function ScalarValue(p: Printer, s: Option<Scalar>): Num {
    match s
    case Some(v) => NumOr(p, v.value)
    case None => p.zero
  }

  function SummarySampleCount(p: Printer, m: Metric): Num {
    match m.summary
    case Some(s) => NumOr(p, s.sampleCount)
    case None => p.zero
  }

  function SummarySampleSum(p: Printer, m: Metric): Num {
    match m.summary
    case Some(s) => NumOr(p, s.sampleSum)
    case None => p.zero
  }

  function HistogramSampleCount(p: Printer, m: Metric): Num {
    match m.histogram
    case Some(h) => NumOr(p, h.sampleCount)
    case None => p.zero
  }

  /** The enum's `String()`: the declared name of a known code, and the code
      in decimal for any other. */
  function TypeName(t: MetricType): (s: string)
    ensures t == COUNTER ==> s == "COUNTER"
    ensures t == GAUGE ==> s == "GAUGE"
    ensures t == SUMMARY ==> s == "SUMMARY"
    ensures t == UNTYPED ==> s == "UNTYPED"
    ensures t == HISTOGRAM ==> s == "HISTOGRAM"
    ensures 4 < t ==> Decimal.AllDigits(s) && Decimal.DecimalValue(s) == t as int && s[0] != '0'
    ensures t < 0 ==>
      && |s| > 1 && s[0] == '-' && Decimal.AllDigits(s[1..])
      && Decimal.DecimalValue(s[1..]) == -(t as int) && s[1] != '0'
  {
    if t == COUNTER then "COUNTER"
    else if t == GAUGE then "GAUGE"
    else if t == SUMMARY then "SUMMARY"
    else if t == UNTYPED then "UNTYPED"
    else if t == HISTOGRAM then "HISTOGRAM"
    else Decimal.IntToDecimal(t as int)
  }

  /** Distinct type codes get distinct names, so the name identifies the type. */
  lemma TypeNameInjective(a: MetricType, b: MetricType)
    requires TypeName(a) == TypeName(b)
    ensures a == b
  {
  }
}
