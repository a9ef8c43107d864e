# ecl_quantile: ensemble resampling and quantile aggregation

`ecl_quantile` loads an ensemble of ECLIPSE summary cases, puts every case
on one evenly spaced time axis, and for every declared output writes, per
axis time and per `KEY:QUANTILE` column, the empirical quantile of the
values of the cases that cover that time. This project models the core of
`devel/libecl/applications/ecl_quantile.c` in Dafny and proves properties
of the model:

- `Ensembles`: the loaded cases (`SumCase`: data file, start and end time),
  the running start/end bounds kept by `ensemble_add_case` (with its quirk:
  the start bound is only min-combined while it is positive, so the first
  case, and any case added while the bound is zero or negative, replaces
  it), the time axis `start + i*(end-start)/(n-1)` with C's truncating
  integer division, and the class `Ensemble` whose methods add cases, build
  the axis and run `ensemble_init` (reference case taken from element 0
  before the axis is built; fewer than 10 cases rejected after it).
- `Outputs`: the `S3GRAPH` / `HEADER` / `PLAIN` tags, the writer each
  format dispatches to, the table of OUTPUT lines keyed by file (a later
  line for the same file replaces an earlier one), and the qualifier
  shown on the third S3Graph header line.
- `Quantiles`: parsing of column tokens (quantile after the last `:`, key
  before it), the sample vector of a key at a time (one value per covering
  case, both ends inclusive, in ensemble order), the row cache shared by
  the columns of one row and emptied after it, and the result matrix.
- `Text` splits and joins at `:`; `Fallible` holds `Option` and `Result`.

Foreign functions are parameters: `valueAt` stands for
`ecl_sum_get_general_var_from_sim_time`, `quantile` for
`statistics_empirical_quantile`, `parseQ` for `util_sscanf_double`.
Sample values and quantile levels are `real` and are passed through
untouched; timestamps are `int`. A fatal exit of the program is a
`None`, a `Failure` or an `InitOutcome` other than `Initialised`.

Three behaviours of the code are reproduced as written. First, the axis
comes from truncating integer division. For a start at or before the end
(which `BoundsOrdered` gives when every case starts no later than it ends)
it is non-decreasing (`AxisMonotone`) and evenly spaced up to that
truncation: consecutive entries lie `(end - start) / (n - 1)` or one more
apart (`AxisSpacing`). It is strictly increasing exactly when the span has
at least one second per step (`AxisStrictlyIncreasing`,
`AxisRepeatsWhenShort`, `AxisRepeatsExample`). Second, the start bound is
the minimum start whenever every start time is positive; once a start is
zero or earlier it can differ from the minimum and depends on the order
the cases were added, since such a case discards every earlier start
(`StartBoundIsMin`, `StartBoundResets`, `StartBoundNonPositiveExample`).
Third, NUM_INTERP is not checked, so a value of 1 divides by zero as soon
as a case is loaded, while values of 0 or below build an empty axis.

## Model

| member | source | states |
|---|---|---|
| `Ensembles.Ensemble.constructor` | devel/libecl/applications/ecl_quantile.c:123-133 | a new ensemble has no cases, an empty axis, 50 interpolation points and both bounds at -1 |
| `Ensembles.Ensemble.AddCase` | devel/libecl/applications/ecl_quantile.c:89-98 | the case is appended; the start bound is min-combined only when positive and otherwise replaced; the end bound is the max; the bounds stay those of the whole case list |
| `Ensembles.EndBoundIsMax` | devel/libecl/applications/ecl_quantile.c:97 | the end bound is at least -1, at least every case's end, and equals -1 or some case's end |
| `Ensembles.StartBoundIsMin` | devel/libecl/applications/ecl_quantile.c:92-95 | with positive start times the start bound of a non-empty ensemble is the earliest start |
| `Ensembles.StartBoundNonPositiveExample` | devel/libecl/applications/ecl_quantile.c:92-95 | a case starting at time 0 is replaced by the next case's later start |
| `Ensembles.EndBoundOrderIndependent` | devel/libecl/applications/ecl_quantile.c:89-98 | the end bound does not depend on the order cases are added |
| `Ensembles.StartBoundOrderIndependent` | devel/libecl/applications/ecl_quantile.c:89-98 | with positive start times the start bound does not depend on the order cases are added |
| `Ensembles.StartBoundAfterNonPositive` | devel/libecl/applications/ecl_quantile.c:92-95 | once the start bound is zero or earlier, the start bound after further cases is that of the further cases alone |
| `Ensembles.StartBoundResets` | devel/libecl/applications/ecl_quantile.c:92-95 | a case starting at time zero or earlier, followed by more cases, makes every case before it irrelevant to the start bound |
| `Ensembles.BoundsOrdered` | devel/libecl/applications/ecl_quantile.c:89-98 | if each case starts no later than it ends, the start bound is not after the end bound |
| `Ensembles.TruncDiv` | devel/libecl/applications/ecl_quantile.c:105 | the quotient is C's, truncated toward zero for either sign of the dividend |
| `Ensembles.Ensemble.InitTimeInterp` | devel/libecl/applications/ecl_quantile.c:102-106 | the loop appends exactly the axis for the current bounds and point count, changes nothing else and keeps the bounds those of the case list |
| `Ensembles.AxisEndpoints` | devel/libecl/applications/ecl_quantile.c:102-106 | for two or more points the axis has that many entries, starts at the start bound and ends exactly at the end bound |
| `Ensembles.AxisMonotone` | devel/libecl/applications/ecl_quantile.c:105 | for start at or before end the axis never decreases |
| `Ensembles.AxisWithinBounds` | devel/libecl/applications/ecl_quantile.c:105 | for start at or before end every entry lies between the bounds |
| `Ensembles.AxisSpacing` | devel/libecl/applications/ecl_quantile.c:105 | for start at or before end every gap between consecutive entries is the truncated step `(end - start) / (n - 1)` or one more, so the axis is evenly spaced up to rounding |
| `Ensembles.AxisStrictlyIncreasing` | devel/libecl/applications/ecl_quantile.c:105 | when the span is at least the number of steps consecutive entries differ |
| `Ensembles.AxisRepeatsWhenShort` | devel/libecl/applications/ecl_quantile.c:105 | when the span is shorter than the number of steps some consecutive entries are equal, the converse of the strictly increasing case |
| `Ensembles.AxisRepeatsExample` | devel/libecl/applications/ecl_quantile.c:105 | three points over one second give the axis 0, 0, 1 |
| `Ensembles.Ensemble.AddCases` | devel/libecl/applications/ecl_quantile.c:115-116 | the cases are appended in the order given, one `AddCase` each as the loop over a glob's matches does (and the CASE_LIST loops that call it in turn), the bounds stay those of the whole case list, and nothing else changes |
| `Ensembles.Ensemble.Init` | devel/libecl/applications/ecl_quantile.c:136-162 | all loaded cases are added in order; no case is an abort; otherwise the reference case is the first case, NUM_INTERP overrides the point count, the axis is built, and fewer than 10 cases is rejected afterwards |
| `Outputs.ParseFormat` | devel/libecl/applications/ecl_quantile.c:182-189 | exactly the three tags are recognised, each as the format whose tag it is; any other string aborts |
| `Outputs.ParseFormatTag` | devel/libecl/applications/ecl_quantile.c:182-189 | every format's tag is recognised as that format |
| `Outputs.Dispatch` | devel/libecl/applications/ecl_quantile.c:459-473 | a writer exists exactly for the codes 1 to 3; other codes exit |
| `Outputs.DispatchFormat` | devel/libecl/applications/ecl_quantile.c:459-473 | every format reaches a writer; HEADER and PLAIN reach the plain writer, with the header only for HEADER |
| `Outputs.OutputFromTokens` | devel/libecl/applications/ecl_quantile.c:225-232 | token 0 is the file, token 1 the format (unknown tag aborts), tokens 2 onwards are the keys unchanged and in order |
| `Outputs.OutputTableInit` | devel/libecl/applications/ecl_quantile.c:222-236 | aborts exactly when some line has an unknown tag; otherwise the table's files are those of the lines and each file holds the output of its last line |
| `Outputs.SelectQualifier` | devel/libecl/applications/ecl_quantile.c:377-388 | the third header cell shows the number exactly when it is needed and the well/group name exactly when that is needed, with the case's values |
| `Text.Split` | devel/libecl/applications/ecl_quantile.c:507 | splitting always yields at least one segment |
| `Text.JoinSplit` | devel/libecl/applications/ecl_quantile.c:507-511 | joining the segments with the separator gives back the token |
| `Text.SplitSingle` | devel/libecl/applications/ecl_quantile.c:508 | a token is one segment exactly when it holds no separator |
| `Quantiles.ParseColumnKey` | devel/libecl/applications/ecl_quantile.c:505-516 | a token without ':' is malformed; otherwise the key is everything before the last ':' and the quantile is the parse of everything after it, which fails when that is not a number |
| `Quantiles.ParseColumnKeyAtLastColon` | devel/libecl/applications/ecl_quantile.c:505-516 | any split of a token at a ':' with none after it determines the parsed key and quantile or the quantile error |
| `Quantiles.EmptySegmentsExample` | devel/libecl/applications/ecl_quantile.c:507-516 | `A::0.5` parses to the key `A:` and `:0.5` to the empty key, both with the level parsed from `0.5` |
| `Quantiles.ParseColumns` | devel/libecl/applications/ecl_quantile.c:500-519 | keys and quantiles have the output's length and order, or the result is the first failing token's error |
| `Quantiles.CoveringIndices` | devel/libecl/applications/ecl_quantile.c:544-548 | the positions of the covering cases, each once and increasing, and only covering cases |
| `Quantiles.SamplesOfCoveringCases` | devel/libecl/applications/ecl_quantile.c:544-548 | the sample vector holds one value per case whose span includes the time at both ends, taken from that case, in ensemble order |
| `Quantiles.CollectSamples` | devel/libecl/applications/ecl_quantile.c:542-549 | the loop over the cases collects exactly the sample vector of the key at the time |
| `Quantiles.CachedSamples` | devel/libecl/applications/ecl_quantile.c:534-549 | a cache lookup returns the key's sample vector; the new cache is the old one with exactly that key's entry set to the vector (created when missing, filled when empty) and every other entry unchanged, each entry empty or correct for the row |
| `Quantiles.ResetAll` | devel/libecl/applications/ecl_quantile.c:552 | after a row every cached vector is empty and no key is lost |
| `Quantiles.FillCell` | devel/libecl/applications/ecl_quantile.c:527-550 | the entry holds the quantile of its key's samples at the row's time, the cache is the old one with that key's entry set to those samples, and no other matrix entry changes |
| `Quantiles.FillRow` | devel/libecl/applications/ecl_quantile.c:527-553 | every column of the row reads its key's sample vector at the row's time and holds its quantile; other rows are untouched; the cache leaves the row empty |
| `Quantiles.Resample` | devel/libecl/applications/ecl_quantile.c:481-555 | the matrix is a new array with one row per axis time and one column per key, and each entry is the quantile of the samples of its column's key at its row's time |
| `Quantiles.RunLine` | devel/libecl/applications/ecl_quantile.c:479-563 | an output succeeds exactly when all its tokens parse; its matrix is a new array with the axis's rows and the keys' columns holding the quantile entries, and its writer is the one its format dispatches to |

## Left out

- Loading summary files (`ecl_sum_fread_alloc_case`), glob expansion (`ensemble_load_from_glob`), configuration parsing (`config_init`, `config_parse`), `usage` and `main`: file and configuration I/O; `Ensemble.Init` takes the loaded cases in load order and the NUM_INTERP setting as inputs.
- `statistics_empirical_quantile`: its body is not part of this model and works on doubles; it is the parameter `quantile`, and no property of empirical quantiles is proved.
- `Quantiles.FillRow`: assumes `quantile` leaves the vector it is given unchanged; the source hands it the cached vector itself, which later columns with the same key reuse without refilling, so a quantile routine that sorts or otherwise rearranges that vector in place is not captured (for a routine whose value depends only on the multiset of samples the matrix entries still hold, but `used[c]` of a later column with the same key would then be the rearranged vector, not the samples in ensemble order).
- `Quantiles.FillCell`: the same assumption that `quantile` does not alter the cached vector.
- `Quantiles.Resample`: the same assumption that `quantile` does not alter the cached vector.
- `Quantiles.RunLine`: the same assumption that `quantile` does not alter the cached vector; and `valueAt` and `quantile` are total, so the model assumes neither call stops the program. In the source a key the case does not have, or the quantile of an empty sample vector, is fatal, and an empty vector is reachable: with cases spanning [100, 200] and [300, 400] and NUM_INTERP 3 the axis time 250 is covered by no case. "Succeeds exactly when all its tokens parse" holds only under that assumption.
- `ecl_sum_get_general_var_from_sim_time` and the reference-case metadata getters (unit, keyword, wgname, num, variable type, the needs-num and needs-wgname tests): foreign lookups; the first is the parameter `valueAt`, the others are the inputs of `SelectQualifier`.
- `util_sscanf_double`: foreign floating-point parsing, the parameter `parseQ`.
- `util_split_string` and `util_alloc_joined_string` are not part of this model; `Text.Split` splits at every ':' and keeps empty segments, so a token with adjacent, leading or trailing separators is split as written (`EmptySegmentsExample`): `A::0.5` gives the key `A:` and the level text `0.5`, `:0.5` gives the empty key, and `A:0.5:` gives the key `A:0.5` and an empty level text; a splitter that collapsed or dropped empty segments would give different keys for these.
- All `fprintf` text layout: field widths, `print_var` padding, the S3Graph and plain header and data lines, date conversion with `util_set_datetime_values` and the floating day offset divided by 86400; `SelectQualifier` chooses what the third S3Graph header cell shows, not how it is printed.
- Memory allocation and freeing, the order in which `output_table_run` visits the output table, and writing the files; `RunLine` models one output.
- `time_t` and `int` overflow in `start + i*(end-start)/(n-1)`: timestamps are unbounded integers.
- The reference case's bounds check in `vector_iget_const` is library code; an empty ensemble is modelled as the abort `NoCases`.
- `Ensembles.Ensemble.Init`: requires the effective NUM_INTERP to differ from 1 whenever some case is loaded, the one situation in which the source divides by zero; with no case it aborts before dividing, which is `NoCases`.
- `Quantiles.FillRow`: states that every key of the row is in the cache afterwards, not the exact key set of the cache.
- `devel/libplot/src/plot_test.c`: a plotting demo over floating-point curves with no logic of this core.
