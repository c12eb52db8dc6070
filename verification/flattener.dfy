/** The flattening loop of `Parse`: it walks the mapped families in order and
    appends, under each family's name, the value of every simple series and the
    sum of every summary series; histogram series add nothing. */
module Flattener {
  import opened Mapper

  /** The flattened result: family name to list of strings. */
  type Flat = map<string, seq<string>>

  /** What a simple series does to its family's list before its value is
      appended. The source states this step with ill-typed code (a comma-ok
      test on a map and a map assigned to a list), so it is a parameter: any
      function of the list so far and the series' labels. */
  type LabelStep = (seq<string>, map<string, string>) -> seq<string>

  /** Reading a missing key of a Go map of slices gives the empty (nil) slice. */
  function Lookup(res: Flat, name: string): seq<string> {
    if name in res then res[name] else []
  }

  /** The list under `k` exists (is nonempty) and ends with `s`. */
  predicate EndsWith(r: Flat, k: string, s: string) {
    |Lookup(r, k)| > 0 && Lookup(r, k)[|Lookup(r, k)| - 1] == s
  }

  /** The string a contributing series appends last. */
  function Contribution(e: Entry): string
    requires !e.Histogram?
  {
    if e.Metric? then e.value else e.sum
  }

  /** One iteration of the inner loop, for series `e` of family `name`. */
  function FlattenEntry(step: LabelStep, res: Flat, name: string, e: Entry): (r: Flat)
    ensures e.Histogram? ==> r == res
    ensures !e.Histogram? ==> r.Keys == res.Keys + {name}
    ensures !e.Histogram? ==> |r[name]| > 0 && r[name][|r[name]| - 1] == Contribution(e)
    ensures e.Summary? ==> r[name] == Lookup(res, name) + [e.sum]
    ensures forall k :: k in res && k != name ==> r[k] == res[k]
  {
    match e
    case Metric(labels, value) =>
      var res' := res[name := step(Lookup(res, name), labels)];
      res'[name := Lookup(res', name) + [value]]
    case Summary(_, _, _, sum) =>
      res[name := Lookup(res, name) + [sum]]
    case Histogram(_, _, _, _) =>
      res
  }

  /** Some series of the list is not a histogram, so the list adds something. */
  ghost predicate Contributes(es: seq<Entry>) {
    exists i :: 0 <= i < |es| && !es[i].Histogram?
  }

  /** No series of the list is a simple metric. */
  ghost predicate NoSimple(es: seq<Entry>) {
    forall i :: 0 <= i < |es| ==> !es[i].Metric?
  }

  /** `es[i]` is the last series of the list that is not a histogram. */
  ghost predicate LastContributor(es: seq<Entry>, i: int) {
    && 0 <= i < |es|
    && !es[i].Histogram?
    && forall j :: i < j < |es| ==> es[j].Histogram?
  }

  /** The sums of the summary series of a list, in order. */
  function Sums(es: seq<Entry>): seq<string> {
    if es == [] then []
    else Sums(es[..|es| - 1]) + (if es[|es| - 1].Summary? then [es[|es| - 1].sum] else [])
  }

  /** A list of summaries adds the sum of every series, in order. */
  lemma {:induction false} SumsOfSummaries(es: seq<Entry>)
    requires forall i :: 0 <= i < |es| ==> es[i].Summary?
    ensures |Sums(es)| == |es|
    ensures forall i :: 0 <= i < |es| ==> Sums(es)[i] == es[i].sum
  {
    if es != [] {
      var init := es[..|es| - 1];
      assert forall i :: 0 <= i < |init| ==> init[i] == es[i];
      SumsOfSummaries(init);
    }
  }

  /** A list of histograms adds no sums. */
  lemma {:induction false} SumsOfHistograms(es: seq<Entry>)
    requires forall i :: 0 <= i < |es| ==> es[i].Histogram?
    ensures Sums(es) == []
  {
    if es != [] {
      var init := es[..|es| - 1];
      assert forall i :: 0 <= i < |init| ==> init[i] == es[i];
      SumsOfHistograms(init);
    }
  }

  /** The inner loop: every series of family `name`, in order. */
  function FlattenEntries(step: LabelStep, res: Flat, name: string, es: seq<Entry>): (r: Flat)
    ensures r.Keys == res.Keys + (if Contributes(es) then {name} else {})
    ensures forall k :: k in res && k != name ==> r[k] == res[k]
    ensures !Contributes(es) ==> r == res
  {
    if es == [] then res
    else
      var init, last := es[..|es| - 1], es[|es| - 1];
      var prev := FlattenEntries(step, res, name, init);
      EntriesSnoc(es);
      FlattenEntry(step, prev, name, last)
  }

  /** Without simple series, a family's list grows by exactly the sums of its
      summary series, in series order. */
  lemma {:induction false} EntriesWithoutSimpleMetrics(step: LabelStep, res: Flat, name: string, es: seq<Entry>)
    requires NoSimple(es)
    ensures Lookup(FlattenEntries(step, res, name, es), name) == Lookup(res, name) + Sums(es)
  {
    if es != [] {
      var init, last := es[..|es| - 1], es[|es| - 1];
      EntriesSnoc(es);
      EntriesWithoutSimpleMetrics(step, res, name, init);
    }
  }

  /** The family's list ends with what its last non-histogram series adds:
      the value of a simple series, the sum of a summary. */
  lemma {:induction false} LastContributionIsLast(step: LabelStep, res: Flat, name: string, es: seq<Entry>, i: int)
    requires LastContributor(es, i)
    ensures EndsWith(FlattenEntries(step, res, name, es), name, Contribution(es[i]))
  {
    var init, last := es[..|es| - 1], es[|es| - 1];
    var prev := FlattenEntries(step, res, name, init);
    assert FlattenEntries(step, res, name, es) == FlattenEntry(step, prev, name, last);
    if last.Histogram? {
      assert LastContributor(init, i);
      LastContributionIsLast(step, res, name, init, i);
    } else {
      assert i == |es| - 1;
    }
  }

  /** How the list predicates split over a list and its last series. */
  lemma EntriesSnoc(es: seq<Entry>)
    requires es != []
    ensures var init, last := es[..|es| - 1], es[|es| - 1];
      && (Contributes(es) <==> Contributes(init) || !last.Histogram?)
      && (NoSimple(es) <==> NoSimple(init) && !last.Metric?)
      && (forall i :: LastContributor(es, i) && last.Histogram? ==> LastContributor(init, i))
      && (!last.Histogram? ==> LastContributor(es, |es| - 1))
      && (forall i :: LastContributor(es, i) && !last.Histogram? ==> i == |es| - 1)
  {
  }

  /** The names of the families that add something to the result. */
  ghost function Contributors(fs: seq<MetricFamily>): set<string> {
    set i | 0 <= i < |fs| && Contributes(fs[i].metrics) :: fs[i].name
  }

  /** The outer loop: every family, in order. A name gets a list exactly
      when it already had one or some family of that name has a series other
      than a histogram; the other lists are left alone. */
  function Flatten(step: LabelStep, res: Flat, fs: seq<MetricFamily>): (r: Flat)
    ensures r.Keys == res.Keys + Contributors(fs)
    ensures forall k :: k in res && k !in Contributors(fs) ==> r[k] == res[k]
  {
    if fs == [] then res
    else
      ContributorsSnoc(fs);
      FlattenEntries(step, Flatten(step, res, fs[..|fs| - 1]), fs[|fs| - 1].name, fs[|fs| - 1].metrics)
  }

  /** The contributing names split over a document and its last family. */
  lemma ContributorsSnoc(fs: seq<MetricFamily>)
    requires fs != []
    ensures var init, last := fs[..|fs| - 1], fs[|fs| - 1];
      Contributors(fs) == Contributors(init) + (if Contributes(last.metrics) then {last.name} else {})
  {
  }

  /** The sums that the summary series of families named `k` add, in order. */
  function DocumentSums(fs: seq<MetricFamily>, k: string): seq<string> {
    if fs == [] then []
    else DocumentSums(fs[..|fs| - 1], k) + (if fs[|fs| - 1].name == k then Sums(fs[|fs| - 1].metrics) else [])
  }

  /** No family named `k` has a simple series. */
  ghost predicate NoSimpleUnder(fs: seq<MetricFamily>, k: string) {
    forall i :: 0 <= i < |fs| && fs[i].name == k ==> NoSimple(fs[i].metrics)
  }

  /** When no family named `k` has a simple series, `k`'s list is its starting
      list followed by the sums of the summary series of the families named
      `k`, family by family and series by series: quantiles, counts and
      histograms never appear, whatever the families of other names hold. */
  lemma FlattenWithoutSimpleMetrics(step: LabelStep, res: Flat, fs: seq<MetricFamily>)
    ensures forall k :: NoSimpleUnder(fs, k) ==> Lookup(Flatten(step, res, fs), k) == Lookup(res, k) + DocumentSums(fs, k)
  {
    forall k | NoSimpleUnder(fs, k) ensures Lookup(Flatten(step, res, fs), k) == Lookup(res, k) + DocumentSums(fs, k) {
      SumsUnderName(step, res, fs, k);
    }
  }

  /** `FlattenWithoutSimpleMetrics` for one name, by induction on the families. */
  lemma {:induction false} SumsUnderName(step: LabelStep, res: Flat, fs: seq<MetricFamily>, k: string)
    requires NoSimpleUnder(fs, k)
    ensures Lookup(Flatten(step, res, fs), k) == Lookup(res, k) + DocumentSums(fs, k)
  {
    if fs != [] {
      var init := fs[..|fs| - 1];
      assert forall i :: 0 <= i < |init| ==> init[i] == fs[i];
      SumsUnderName(step, res, init, k);
      SumsUnderNameStep(step, res, fs, k);
    }
  }

  /** The inductive step of `SumsUnderName`: the last family. */
  lemma SumsUnderNameStep(step: LabelStep, res: Flat, fs: seq<MetricFamily>, k: string)
    requires fs != [] && (fs[|fs| - 1].name == k ==> NoSimple(fs[|fs| - 1].metrics))
    requires Lookup(Flatten(step, res, fs[..|fs| - 1]), k) == Lookup(res, k) + DocumentSums(fs[..|fs| - 1], k)
    ensures Lookup(Flatten(step, res, fs), k) == Lookup(res, k) + DocumentSums(fs, k)
  {
    if fs[|fs| - 1].name == k {
      SumsUnderSameName(step, res, fs, k);
    } else {
      SumsUnderOtherName(step, res, fs, k);
    }
  }

  /** A last family of another name leaves `k`'s list and sums as they were. */
  lemma SumsUnderOtherName(step: LabelStep, res: Flat, fs: seq<MetricFamily>, k: string)
    requires fs != [] && fs[|fs| - 1].name != k
    requires Lookup(Flatten(step, res, fs[..|fs| - 1]), k) == Lookup(res, k) + DocumentSums(fs[..|fs| - 1], k)
    ensures Lookup(Flatten(step, res, fs), k) == Lookup(res, k) + DocumentSums(fs, k)
  {
    LastFamilyKeepsOtherName(step, res, fs, k);
    assert DocumentSums(fs, k) == DocumentSums(fs[..|fs| - 1], k) + [];
  }

  /** A last family of another name leaves `k`'s list as it was. */
  lemma LastFamilyKeepsOtherName(step: LabelStep, res: Flat, fs: seq<MetricFamily>, k: string)
    requires fs != [] && fs[|fs| - 1].name != k
    ensures Lookup(Flatten(step, res, fs), k) == Lookup(Flatten(step, res, fs[..|fs| - 1]), k)
  {
    var init, last := fs[..|fs| - 1], fs[|fs| - 1];
    EntriesKeepOtherNames(step, Flatten(step, res, init), last.name, last.metrics, k);
  }

  /** A last family named `k` without simple series appends its sums to `k`'s list. */
  lemma SumsUnderSameName(step: LabelStep, res: Flat, fs: seq<MetricFamily>, k: string)
    requires fs != [] && fs[|fs| - 1].name == k && NoSimple(fs[|fs| - 1].metrics)
    requires Lookup(Flatten(step, res, fs[..|fs| - 1]), k) == Lookup(res, k) + DocumentSums(fs[..|fs| - 1], k)
    ensures Lookup(Flatten(step, res, fs), k) == Lookup(res, k) + DocumentSums(fs, k)
  {
    var init, last := fs[..|fs| - 1], fs[|fs| - 1];
    var prev := Flatten(step, res, init);
    assert Flatten(step, res, fs) == FlattenEntries(step, prev, k, last.metrics);
    EntriesWithoutSimpleMetrics(step, prev, k, last.metrics);
    assert DocumentSums(fs, k) == DocumentSums(init, k) + Sums(last.metrics);
    AppendAfter(Lookup(res, k), DocumentSums(init, k), Sums(last.metrics));
  }

  /** Appending to a list that is `before + added` extends `added`. */
  lemma AppendAfter(before: seq<string>, added: seq<string>, tail: seq<string>)
    ensures (before + added) + tail == before + (added + tail)
  {
  }

  /** The series of one family never touch the list of another name. */
  lemma EntriesKeepOtherNames(step: LabelStep, res: Flat, name: string, es: seq<Entry>, k: string)
    requires k != name
    ensures Lookup(FlattenEntries(step, res, name, es), k) == Lookup(res, k)
  {
  }

  /** The families after family `n` leave `k`'s list alone when none of those
      named `k` adds anything. */
  lemma {:induction false} LaterFamiliesKeepName(step: LabelStep, res: Flat, fs: seq<MetricFamily>, n: int, k: string)
    requires 0 <= n < |fs|
    requires forall l :: n < l < |fs| && fs[l].name == k ==> !Contributes(fs[l].metrics)
    ensures Lookup(Flatten(step, res, fs), k) == Lookup(Flatten(step, res, fs[..n + 1]), k)
    decreases |fs|
  {
    if n + 1 < |fs| {
      var init, last := fs[..|fs| - 1], fs[|fs| - 1];
      assert init[..n + 1] == fs[..n + 1];
      assert forall l :: n < l < |init| ==> init[l] == fs[l];
      LaterFamiliesKeepName(step, res, init, n, k);
      if last.name != k {
        EntriesKeepOtherNames(step, Flatten(step, res, init), last.name, last.metrics, k);
      }
    } else {
      assert fs[..n + 1] == fs;
    }
  }

  /** Family `i` is the last family named `k` that adds something, its series
      `j` is the last that adds something, and what it adds is `s`. */
  ghost predicate LastContribution(fs: seq<MetricFamily>, i: int, j: int, k: string, s: string) {
    && 0 <= i < |fs| && fs[i].name == k
    && LastContributor(fs[i].metrics, j) && Contribution(fs[i].metrics[j]) == s
    && forall l :: i < l < |fs| && fs[l].name == k ==> !Contributes(fs[l].metrics)
  }

  /** The list of name `k` ends with what the last series that adds something
      to it, in the last family named `k` that adds something, contributes. */
  lemma FlattenEndsWithLastContribution(step: LabelStep, res: Flat, fs: seq<MetricFamily>, i: int, j: int, k: string, s: string)
    requires LastContribution(fs, i, j, k, s)
    ensures EndsWith(Flatten(step, res, fs), k, s)
  {
    PrefixEndsWithContribution(step, res, fs, i, j, k, s);
    LaterFamiliesKeepName(step, res, fs, i, k);
  }

  /** Right after family `i`, its name's list ends with what its last
      contributing series `j` adds. */
  lemma PrefixEndsWithContribution(step: LabelStep, res: Flat, fs: seq<MetricFamily>, i: int, j: int, k: string, s: string)
    requires 0 <= i < |fs| && fs[i].name == k
    requires LastContributor(fs[i].metrics, j) && Contribution(fs[i].metrics[j]) == s
    ensures EndsWith(Flatten(step, res, fs[..i + 1]), k, s)
  {
    FlattenPrefix(step, res, fs, i);
    LastContributionIsLast(step, Flatten(step, res, fs[..i]), k, fs[i].metrics, j);
  }

  /** Flattening the first `i + 1` families is flattening the first `i` and then family `i`. */
  lemma FlattenPrefix(step: LabelStep, res: Flat, fs: seq<MetricFamily>, i: int)
    requires 0 <= i < |fs|
    ensures Flatten(step, res, fs[..i + 1]) == FlattenEntries(step, Flatten(step, res, fs[..i]), fs[i].name, fs[i].metrics)
  {
    var upto := fs[..i + 1];
    assert upto[..i] == fs[..i] && upto[i] == fs[i];
  }

  /** Without simple series the result does not depend on the label step. */
  lemma LabelStepIrrelevantWithoutSimpleMetrics(step1: LabelStep, step2: LabelStep, res: Flat, fs: seq<MetricFamily>)
    requires forall i :: 0 <= i < |fs| ==> NoSimple(fs[i].metrics)
    ensures Flatten(step1, res, fs) == Flatten(step2, res, fs)
  {
    var r1, r2 := Flatten(step1, res, fs), Flatten(step2, res, fs);
    FlattenWithoutSimpleMetrics(step1, res, fs);
    FlattenWithoutSimpleMetrics(step2, res, fs);
    assert forall k :: NoSimpleUnder(fs, k);
    assert r1.Keys == r2.Keys;
    forall k | k in r1 ensures r1[k] == r2[k] {
      assert Lookup(r1, k) == Lookup(r2, k);
    }
  }

  /** Families made only of histogram series leave the result as it was. */
  lemma AllHistogramsAddNothing(step: LabelStep, res: Flat, fs: seq<MetricFamily>)
    requires forall i, j :: 0 <= i < |fs| && 0 <= j < |fs[i].metrics| ==> fs[i].metrics[j].Histogram?
    ensures Flatten(step, res, fs) == res
  {
    var r := Flatten(step, res, fs);
    assert Contributors(fs) == {};
    assert r.Keys == res.Keys;
  }
}
