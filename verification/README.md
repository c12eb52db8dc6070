# prom2json parser, modelled in Dafny

This project models the mapping and flattening layer of prom2json's `parser.go`. It takes the metric families that the Prometheus text-exposition tokenizer produces (protobuf `dto.MetricFamily` records) and does two things:

1. The **family mapper** (`newMetricFamily`, `getValue`, `makeLabels`, `makeQuantiles`, `makeBuckets`) turns each family into a `MetricFamily`. Each family has a name, help text, a type name and one string-valued entry per series. The family type picks the entry's shape: `Summary` for SUMMARY, `Histogram` for HISTOGRAM, and `Metric` for every other code.
2. The **flattener** (the loops of `Parse`) walks the mapped families in order. It builds a `map[name] -> []string`:
   - a `Metric` series appends its value last;
   - a `Summary` series appends only its sum;
   - a `Histogram` series appends nothing.

Modules:

- `Wrappers`: `Option` and `Result`.
- `Decimal`: decimal rendering of integers, used to name enum codes that have no declared name.
- `Dto`: the tokenized input records, with the nil-safe protobuf getters.
  - Every protobuf pointer field is an `Option`.
  - Sample numbers are an opaque type `Num`.
  - `Printer` carries the number formatter `show` (standing for `fmt.Sprint`) and the zero that getters return for absent numbers.
- `Overwrite`: the ordered-overwrite map construction shared by the three `make*` loops.
- `Mapper`: the output entries and the family mapper.
- `Flattener`: the flattening loops.
- `Parser`: `Parse` after the fetch. It takes the fetch outcome as a parameter: either the tokenized families or the fetch's error.

Modelling choices:

- `newMetricFamily` reads quantiles and buckets through the payload pointer (`m.GetSummary().Quantile`, `m.GetHistogram().Bucket`). When that payload is absent, this dereferences a nil pointer and panics. The model therefore requires the tokenizer's guarantee (`Mapper.Mappable`): every series of a SUMMARY family has a summary payload, and every series of a HISTOGRAM family has a histogram payload.
- Two quirks are modelled as written. First, a histogram entry's `Sum` is read from the series' *summary* payload, so it is the printed zero whenever there is no summary payload (parser.go:75). Second, the check `result == nil` can never fire, because `result` comes from `make` (parser.go:163, 181-183). The model represents Go map values as `Parser.GoMap` and keeps that dead branch.
- Lines 168-169 are not well-typed Go:
  - `labels, ok := w.Labels` is a comma-ok test on a plain map;
  - `append(labels)` assigns a map to a `[]string`.

  So what a simple series writes before its value has no defined meaning. The model makes that step a parameter, `Flattener.LabelStep`: any function from the list so far and the series' labels to a new list. No property depends on which function it is.
- Three behaviours of the code deserve stating outright, since a reader might expect otherwise:
  - An empty document, or one made only of histogram families, gives an empty map and no error (`Parser.EmptyDocument`, `Parser.HistogramDocument`).
  - A family type code with no declared name becomes simple `Metric` entries, and its type name is the code in decimal (`Mapper.NewMetricFamily`, `Dto.TypeName`).
  - A histogram entry's `Sum` is read from the summary payload (parser.go:75), never from the histogram payload (`Mapper.HistogramEntryFields`, `Mapper.HistogramSumIgnored`).

## Model

| member | source | states |
|---|---|---|
| `Overwrite.Assign` | parser.go:100-122 | The map built by assigning a list in order has exactly the list's keys. Each key holds the value of the last element carrying that key. |
| `Overwrite.AssignConcat` | parser.go:102-104 | Assigning `a` and then `b` equals `b`'s map laid over `a`'s: later assignments win. |
| `Overwrite.ShadowedElementIgnored` | parser.go:102-104 | An element whose key is assigned again later has no effect, so removing it leaves the map unchanged. |
| `Mapper.MakeLabels` | parser.go:100-106 | The label map's keys are exactly the label names of the series. A repeated name keeps the value of its last pair. |
| `Mapper.MakeQuantiles` | parser.go:108-114 | The quantile map is keyed by exactly the printed quantile levels. Each level holds the printed value of the last quantile with that level. |
| `Mapper.MakeBuckets` | parser.go:116-122 | The bucket map is keyed by exactly the printed upper bounds. Each bound holds the printed cumulative count of the last bucket with that bound. |
| `Mapper.GetValue` | parser.go:87-98 | The scalar equals a reference "first present payload" reading of the list gauge, counter, untyped, or zero when none is present. |
| `Mapper.GetValueIgnoresLaterPayloads` | parser.go:87-98 | With a gauge present, counter and untyped never change the result. With a counter present, untyped never does. With no payload the result is zero. |
| `Mapper.NewMetricFamily` | parser.go:55-85 | Name and help are copied, and read as empty when absent. The type name is the type code's name. There is exactly one entry per series, in series order. An entry is a `Summary` iff the type is SUMMARY, a `Histogram` iff HISTOGRAM, and a `Metric` for every other code, unknown ones included. |
| `Mapper.MakeEntry` | parser.go:63-82 | Whatever the type, the entry holds the series' label map. It is a `Summary` iff the type is SUMMARY and a `Histogram` iff HISTOGRAM. A simple entry holds the printed first-present value. A summary or histogram entry's sum is the printed sample sum of the summary payload. |
| `Mapper.SummaryEntryFields` | parser.go:63-69 | A summary entry holds the series' labels and quantiles, and the printed sample count and sum of its summary payload. |
| `Mapper.HistogramEntryFields` | parser.go:70-76 | A histogram entry takes its count from the histogram payload but its sum from the summary payload. The sum is the printed zero when there is no summary payload. |
| `Mapper.HistogramSumIgnored` | parser.go:74-75 | Changing the histogram payload's own sample sum never changes the histogram entry. |
| `Mapper.MetricEntryValue` | parser.go:77-81 | A simple entry holds the series' labels and the printed first-present payload value. |
| `Dto.TypeName` | parser.go:59 | The five declared codes are named COUNTER, GAUGE, SUMMARY, UNTYPED and HISTOGRAM. A code above 4 is named by its decimal digits, with no leading zero, whose value is the code. A negative code is named by `-` followed by such digits of its magnitude. |
| `Dto.TypeNameInjective` | parser.go:59 | Distinct type codes get distinct type names, so the `Type` string identifies the type. |
| `Flattener.FlattenEntry` | parser.go:166-177 | A histogram series leaves the map unchanged. Any other series gives its family name a list, and that list ends with the series' value or sum. A summary series appends exactly its sum. Every other name is untouched. |
| `Flattener.FlattenEntries` | parser.go:166-178 | A family's series add the family name as a key iff one of them is not a histogram. Other names are untouched. A family of histograms leaves the map unchanged. |
| `Flattener.EntriesKeepOtherNames` | parser.go:169-175 | A family's series never change the list of another name. |
| `Flattener.EntriesWithoutSimpleMetrics` | parser.go:174-176 | Without simple series, a family's list grows by exactly the sums of its summary series, in order. |
| `Flattener.LastContributionIsLast` | parser.go:167-177 | A family's list ends with what its last non-histogram series adds: the value of a simple series, or the sum of a summary. |
| `Flattener.Flatten` | parser.go:165-179 | The result's keys are the starting keys plus the names of families that have a non-histogram series. Lists of other names are unchanged. |
| `Flattener.FlattenWithoutSimpleMetrics` | parser.go:165-179 | For every name none of whose families has a simple series, the list is its starting list followed by the sums of the summary series of that name, family by family, whatever the families of other names hold. |
| `Flattener.LabelStepIrrelevantWithoutSimpleMetrics` | parser.go:166-178 | Without simple series, the result is the same whatever the label step does. |
| `Flattener.AllHistogramsAddNothing` | parser.go:166-178 | Families made only of histogram series leave the result exactly as it was. |
| `Flattener.LaterFamiliesKeepName` | parser.go:165-179 | Families after a given position leave a name's list as it was, provided none of them with that name has a non-histogram series. |
| `Flattener.FlattenEndsWithLastContribution` | parser.go:165-179 | A name's list ends with the contribution of the last non-histogram series of the last family of that name that has one. |
| `Parser.MapFamilies` | parser.go:158-161 | The append loop yields one mapped family per tokenized family, and position `i` holds the mapping of family `i`. |
| `Parser.Parse` | parser.go:151-186 | A fetch error is returned unchanged. Otherwise the result is always a map, because the nil branch is unreachable. Its keys are exactly the names of the non-histogram families that have at least one series. |
| `Parser.ContributorsOfMapped` | parser.go:158-179 | The mapped families that add to the map are exactly the non-histogram families with series, under their own names. |
| `Parser.MappedFamilyContributes` | parser.go:57-85 | A mapped family keeps its name, and has a series that adds to the flattened map iff it is not a histogram family and has series. |
| `Parser.EmptyDocument` | parser.go:163-185 | A document with no families yields an empty map and no error. |
| `Parser.HistogramDocument` | parser.go:163-185 | A document of histogram families yields an empty map and no error. |
| `Parser.ParseEndsWithLastSeries` | parser.go:165-179 | Take a non-histogram family with series that no later non-histogram family with series shares a name with. Its name's list ends with the printed sum of its last series if it is a summary family, and with that series' printed first-present value otherwise. |
| `Parser.SummaryDocument` | parser.go:165-179 | For every name whose families are all summary or histogram families, the list is the printed sample sums of that name's summary series, in document order, whatever the other families are. Quantiles, counts and histograms never appear. |

## Left out

- `fetchMetricFamilies` (parser.go:124-148) is left out. The HTTP GET, the status check and the body close are network I/O. Their outcome is the `fetched` parameter of `Parser.Parse`.
- `expfmt.TextParser.TextToMetricFamilies` (parser.go:136-137) is left out. It is a foreign tokenizer whose source is not part of this model, so its output is taken as a given sequence of families.
- The order of the families is not modelled. `fetchMetricFamilies` copies them out of a Go map (parser.go:143-145), so their order is unspecified, and the model takes the sequence as an input.
- The number formatting of `fmt.Sprint` is not modelled: `Printer.show` is opaque. No float round-trip property is claimed, because that would be a claim about floating-point formatting.
- The way label values are placed in the flattened list (parser.go:168-169) is not modelled. The code is ill-typed, so `Flattener.LabelStep` stands for it, and no property relies on it.
- Flattener.FlattenEntry: for a simple series it states only that the family's list ends with the value, not what comes before it. That prefix comes from the ill-typed lines 168-169.
- Flattener.LastContributionIsLast: for simple series it states only the last element of the list, for the same reason.
- The JSON struct tags (parser.go:28-52) are left out. They are serialisation metadata only.
- example/main.go is left out. It is a caller that prints one entry. It also uses `Parse` as if it returned one value, which does not match parser.go:151.
- The nil-pointer panics are left out. Reading quantiles or buckets through an absent payload, or a nil family or series pointer, panics in Go. The tokenizer never produces these, so the model excludes them (`Mapper.Mappable`) instead of modelling a crash.
- Enum names beyond the five the code relies on are left out. Newer client-model versions declare further names, such as GAUGE_HISTOGRAM. Here such a code is named by its decimal form, and it maps to a `Metric` entry either way.
