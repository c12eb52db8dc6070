/** `Parse` after the fetch: map every tokenized family, flatten the result
    into a fresh map, and return it. The fetch (HTTP GET, status check and
    tokenizer) is the `fetched` parameter: either the tokenized families or
    the error the fetch reported. */
module Parser {
  import opened Wrappers
  import Dto
  import Mapper
  import Flattener

  /** Every family carries the payloads its type reads through a pointer. */
  predicate AllMappable(fs: seq<Dto.MetricFamily>) {
    forall i :: 0 <= i < |fs| ==> Mapper.Mappable(fs[i])
  }

  /** The mapping loop: `response = append(response, newMetricFamily(...))` for
      every tokenized family, in order. The result holds, position by
      position, the mapping of the family at the same position. */
  function MapFamilies(p: Dto.Printer, fs: seq<Dto.MetricFamily>): (r: seq<Mapper.MetricFamily>)
    requires AllMappable(fs)
    ensures |r| == |fs|
    ensures forall i {:trigger r[i]} :: 0 <= i < |fs| ==> r[i] == Mapper.NewMetricFamily(p, fs[i])
  {
    if fs == [] then []
    else
      MapFamilies(p, fs[..|fs| - 1]) + [Mapper.NewMetricFamily(p, fs[|fs| - 1])]
  }

  /** A Go map value: nil, or created by `make`. */
  datatype GoMap = NilMap | MadeMap(entries: Flattener.Flat)

  /** The names that end up as keys: those of families that are not
      histograms and have at least one series. */
  ghost function ReportedNames(fs: seq<Dto.MetricFamily>): set<string> {
    set i | 0 <= i < |fs| && Dto.GetType(fs[i]) != Dto.HISTOGRAM && |fs[i].metric| > 0 :: Dto.GetName(fs[i])
  }

  /** `Parse`: a fetch error is returned unchanged; otherwise the result is
      always a map (the nil check cannot fire), keyed by the names of the
      non-histogram families that have series. */
  function Parse(p: Dto.Printer, step: Flattener.LabelStep, fetched: Result<seq<Dto.MetricFamily>, string>)
    : (r: Result<Flattener.Flat, string>)
    requires fetched.Success? ==> AllMappable(fetched.value)
    ensures fetched.Failure? ==> r == Failure(fetched.error)
    ensures fetched.Success? ==> r.Success?
    ensures fetched.Success? ==> r.value.Keys == ReportedNames(fetched.value)
  {
    match fetched
    case Failure(err) => Failure(err)
    case Success(metrics) =>
      var response := MapFamilies(p, metrics);
      var made := MadeMap(map[]);
      var result := MadeMap(Flattener.Flatten(step, made.entries, response));
      ContributorsOfMapped(p, metrics);
      if result.NilMap? then Failure("result is nil") else Success(result.entries)
  }

  /** The families that add to the flattened map are the mapped non-histogram
      families with series. */
  lemma ContributorsOfMapped(p: Dto.Printer, fs: seq<Dto.MetricFamily>)
    requires AllMappable(fs)
    ensures Flattener.Contributors(MapFamilies(p, fs)) == ReportedNames(fs)
  {
    var mfs := MapFamilies(p, fs);
    forall i | 0 <= i < |fs|
      ensures Flattener.Contributes(mfs[i].metrics) <==> Dto.GetType(fs[i]) != Dto.HISTOGRAM && |fs[i].metric| > 0
      ensures mfs[i].name == Dto.GetName(fs[i])
    {
      MappedFamilyContributes(p, fs[i]);
    }
  }

  /** A mapped family keeps its name, and adds to the flattened map exactly
      when it is not a histogram family and has series. */
  lemma MappedFamilyContributes(p: Dto.Printer, f: Dto.MetricFamily)
    requires Mapper.Mappable(f)
    ensures var mf := Mapper.NewMetricFamily(p, f);
      && mf.name == Dto.GetName(f)
      && (Flattener.Contributes(mf.metrics) <==> Dto.GetType(f) != Dto.HISTOGRAM && |f.metric| > 0)
  {
    if Dto.GetType(f) != Dto.HISTOGRAM && |f.metric| > 0 {
      assert !Mapper.NewMetricFamily(p, f).metrics[0].Histogram?;
    }
  }

  /** An empty document yields an empty map, not an error. */
  lemma EmptyDocument(p: Dto.Printer, step: Flattener.LabelStep)
    ensures Parse(p, step, Success([])) == Success(map[])
  {
    assert ReportedNames([]) == {};
  }

  /** A document of histogram families yields an empty map, not an error. */
  lemma HistogramDocument(p: Dto.Printer, step: Flattener.LabelStep, fs: seq<Dto.MetricFamily>)
    requires AllMappable(fs)
    requires forall i :: 0 <= i < |fs| ==> Dto.GetType(fs[i]) == Dto.HISTOGRAM
    ensures Parse(p, step, Success(fs)) == Success(map[])
  {
    assert ReportedNames(fs) == {};
  }

  /** Take any family `fs[i]` that is not a histogram family, has series, and
      is followed by no such family of the same name. The list under its name
      ends with what its last series adds: the printed sum of a summary, the
      printed value of any other series. */
  lemma ParseEndsWithLastSeries(p: Dto.Printer, step: Flattener.LabelStep, fs: seq<Dto.MetricFamily>, i: int)
    requires AllMappable(fs) && 0 <= i < |fs|
    requires Dto.GetType(fs[i]) != Dto.HISTOGRAM && |fs[i].metric| > 0
    requires forall l :: i < l < |fs| ==> AddsNothingUnder(fs, i, l)
    ensures Flattener.EndsWith(Parse(p, step, Success(fs)).value, Dto.GetName(fs[i]), LastSeriesText(p, fs[i]))
  {
    var r := ParsedEndsWithLastSeries(p, step, fs, i);
  }

  /** The map `Parse` returns, ending under the name of family `i` with its
      last series' text. */
  lemma ParsedEndsWithLastSeries(p: Dto.Printer, step: Flattener.LabelStep, fs: seq<Dto.MetricFamily>, i: int)
    returns (r: Flattener.Flat)
    requires AllMappable(fs) && 0 <= i < |fs|
    requires Dto.GetType(fs[i]) != Dto.HISTOGRAM && |fs[i].metric| > 0
    requires forall l :: i < l < |fs| ==> AddsNothingUnder(fs, i, l)
    ensures Parse(p, step, Success(fs)) == Success(r)
    ensures Flattener.EndsWith(r, Dto.GetName(fs[i]), LastSeriesText(p, fs[i]))
  {
    var mfs := MapFamilies(p, fs);
    assert mfs[i] == Mapper.NewMetricFamily(p, fs[i]);
    LastSeriesContribution(p, fs[i]);
    forall l | i < l < |mfs| && mfs[l].name == Dto.GetName(fs[i]) ensures !Flattener.Contributes(mfs[l].metrics) {
      assert AddsNothingUnder(fs, i, l);
      MappedFamilyContributes(p, fs[l]);
    }
    r := ParsedEndsWith(p, step, fs, i, |fs[i].metric| - 1, Dto.GetName(fs[i]), LastSeriesText(p, fs[i]));
  }

  /** Given the last contribution under `k` among the mapped families, the map
      `Parse` returns ends under `k` with it. */
  lemma ParsedEndsWith(p: Dto.Printer, step: Flattener.LabelStep, fs: seq<Dto.MetricFamily>, i: int, j: int, k: string, s: string)
    returns (r: Flattener.Flat)
    requires AllMappable(fs)
    requires Flattener.LastContribution(MapFamilies(p, fs), i, j, k, s)
    ensures Parse(p, step, Success(fs)) == Success(r)
    ensures Flattener.EndsWith(r, k, s)
  {
    Flattener.FlattenEndsWithLastContribution(step, map[], MapFamilies(p, fs), i, j, k, s);
    ParseFlattensMapped(p, step, fs);
    r := Flattener.Flatten(step, map[], MapFamilies(p, fs));
  }

  /** Family `l` adds nothing under the name of family `i`: it has another
      name, is a histogram family, or has no series. */
  predicate AddsNothingUnder(fs: seq<Dto.MetricFamily>, i: int, l: int)
    requires 0 <= i < |fs| && 0 <= l < |fs|
  {
    Dto.GetName(fs[l]) == Dto.GetName(fs[i]) ==> Dto.GetType(fs[l]) == Dto.HISTOGRAM || |fs[l].metric| == 0
  }

  /** What the last series of a non-histogram family with series adds last:
      the printed sum of a summary, the printed first-present value otherwise. */
  function LastSeriesText(p: Dto.Printer, f: Dto.MetricFamily): string
    requires |f.metric| > 0
  {
    var m := f.metric[|f.metric| - 1];
    if Dto.GetType(f) == Dto.SUMMARY then p.show(Dto.SummarySampleSum(p, m)) else p.show(Mapper.GetValue(p, m))
  }

  /** The last series of a non-histogram family with series is the last that
      adds something, and adds the printed sum or the printed value. */
  lemma LastSeriesContribution(p: Dto.Printer, f: Dto.MetricFamily)
    requires Mapper.Mappable(f)
    requires Dto.GetType(f) != Dto.HISTOGRAM && |f.metric| > 0
    ensures Mapper.NewMetricFamily(p, f).name == Dto.GetName(f)
    ensures Flattener.LastContributor(Mapper.NewMetricFamily(p, f).metrics, |f.metric| - 1)
    ensures Flattener.Contribution(Mapper.NewMetricFamily(p, f).metrics[|f.metric| - 1]) == LastSeriesText(p, f)
  {
  }

  /** On a successful fetch, `Parse` returns the flattening of the mapped families. */
  lemma ParseFlattensMapped(p: Dto.Printer, step: Flattener.LabelStep, fs: seq<Dto.MetricFamily>)
    requires AllMappable(fs)
    ensures Parse(p, step, Success(fs)) == Success(Flattener.Flatten(step, map[], MapFamilies(p, fs)))
  {
  }

  /** The printed sample sums of the series of one family, in order. */
  function PrintedSums(p: Dto.Printer, ms: seq<Dto.Metric>): seq<string> {
    seq(|ms|, j requires 0 <= j < |ms| => p.show(Dto.SummarySampleSum(p, ms[j])))
  }

  /** The printed sums of the summary families named `k`, family by family. */
  function SummarySums(p: Dto.Printer, fs: seq<Dto.MetricFamily>, k: string): seq<string> {
    if fs == [] then []
    else
      var last := fs[|fs| - 1];
      SummarySums(p, fs[..|fs| - 1], k)
        + (if Dto.GetName(last) == k && Dto.GetType(last) == Dto.SUMMARY then PrintedSums(p, last.metric) else [])
  }

  /** Every family named `k` is a summary or a histogram family. */
  ghost predicate SummaryOrHistogramNamed(fs: seq<Dto.MetricFamily>, k: string) {
    forall i :: 0 <= i < |fs| && Dto.GetName(fs[i]) == k ==> Dto.GetType(fs[i]) in {Dto.SUMMARY, Dto.HISTOGRAM}
  }

  /** For every name whose families are all summary or histogram families, the
      list is the printed sums of the summary series of that name, in document
      order, whatever the families of other names hold. */
  lemma SummaryDocument(p: Dto.Printer, step: Flattener.LabelStep, fs: seq<Dto.MetricFamily>)
    requires AllMappable(fs)
    ensures Parse(p, step, Success(fs)).Success?
    ensures forall k :: SummaryOrHistogramNamed(fs, k) ==>
      Flattener.Lookup(Parse(p, step, Success(fs)).value, k) == SummarySums(p, fs, k)
  {
    var mfs := MapFamilies(p, fs);
    Flattener.FlattenWithoutSimpleMetrics(step, map[], mfs);
    forall k | SummaryOrHistogramNamed(fs, k)
      ensures Flattener.Lookup(Parse(p, step, Success(fs)).value, k) == SummarySums(p, fs, k)
    {
      forall i | 0 <= i < |mfs| && mfs[i].name == k ensures Flattener.NoSimple(mfs[i].metrics) {
      }
      MappedDocumentSums(p, fs, k);
    }
  }

  /** The mapped families add, under a name whose families are all summary or
      histogram families, the printed sums of the summary families. */
  lemma {:induction false} MappedDocumentSums(p: Dto.Printer, fs: seq<Dto.MetricFamily>, k: string)
    requires AllMappable(fs) && SummaryOrHistogramNamed(fs, k)
    ensures Flattener.DocumentSums(MapFamilies(p, fs), k) == SummarySums(p, fs, k)
  {
    if fs != [] {
      var init := fs[..|fs| - 1];
      assert forall i :: 0 <= i < |init| ==> init[i] == fs[i];
      MappedDocumentSums(p, init, k);
      MappedDocumentSumsStep(p, fs, k);
    }
  }

  /** The inductive step of `MappedDocumentSums`: the last family. */
  lemma MappedDocumentSumsStep(p: Dto.Printer, fs: seq<Dto.MetricFamily>, k: string)
    requires AllMappable(fs) && fs != []
    requires Dto.GetName(fs[|fs| - 1]) == k ==> Dto.GetType(fs[|fs| - 1]) in {Dto.SUMMARY, Dto.HISTOGRAM}
    requires AllMappable(fs[..|fs| - 1])
    requires Flattener.DocumentSums(MapFamilies(p, fs[..|fs| - 1]), k) == SummarySums(p, fs[..|fs| - 1], k)
    ensures Flattener.DocumentSums(MapFamilies(p, fs), k) == SummarySums(p, fs, k)
  {
    var last := fs[|fs| - 1];
    MapFamiliesInit(p, fs);
    if Dto.GetName(last) == k {
      MappedFamilySums(p, last);
    }
  }

  /** Mapping all but the last family is a prefix of mapping them all. */
  lemma MapFamiliesInit(p: Dto.Printer, fs: seq<Dto.MetricFamily>)
    requires AllMappable(fs) && fs != []
    ensures AllMappable(fs[..|fs| - 1])
    ensures MapFamilies(p, fs)[..|fs| - 1] == MapFamilies(p, fs[..|fs| - 1])
    ensures MapFamilies(p, fs)[|fs| - 1] == Mapper.NewMetricFamily(p, fs[|fs| - 1])
  {
  }

  /** A summary family adds the printed sums of its series; a histogram family adds none. */
  lemma MappedFamilySums(p: Dto.Printer, f: Dto.MetricFamily)
    requires Mapper.Mappable(f) && Dto.GetType(f) in {Dto.SUMMARY, Dto.HISTOGRAM}
    ensures Flattener.Sums(Mapper.NewMetricFamily(p, f).metrics)
      == (if Dto.GetType(f) == Dto.SUMMARY then PrintedSums(p, f.metric) else [])
  {
    var es := Mapper.NewMetricFamily(p, f).metrics;
    if Dto.GetType(f) == Dto.SUMMARY {
      Flattener.SumsOfSummaries(es);
    } else {
      Flattener.SumsOfHistograms(es);
    }
  }
}
