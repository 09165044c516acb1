# ESA-QUICOPTSAT experiment logic, modelled in Dafny

The repository is a set of Python scripts that drive QUIC and TCP transfer
experiments over satellite and emulated links (picoquic, quiche, Linux
HyStart) and turn the resulting qlog, sqlog, rustlog and dmesg logs into
tables. This project models the deterministic part of those scripts: the
trial arithmetic and naming, the log scanners and trace extractors that
turn log lines and decoded JSON events into rows, and the checks and
orderings applied to those rows. It proves what each piece promises about
its input.

Modules, one per script plus shared support:

- `Outcomes` holds `Option`, `Result` and `PyError`. `PyError` names the
  Python exception a script would raise; an uncaught exception becomes an
  `Err`.
- `Strings` holds the Python string operations the scripts use: `split`,
  `join`, `replace(p, "")`, `strip`, `int()`, `startswith`/`endswith`/`in`,
  and `os.path.basename`.
- `Json` holds a decoded JSON `Value` and the lookups the scripts perform on it.
- `Sorting` is a key-ordered insertion sort that stands in for pandas
  `sort_values`.
- `Heatmap` covers `heatmap/datarate-latency-heatmap.py`:
  - bandwidth-delay product, netem queue limit and the measurement plan;
  - the `rate{r}_delay{owd}_` rename and its parse;
  - the client/server log join, the Careful-Resume status and the `runPlot` checks.
- `VaryingObjectsize` covers `varyingObjectsize_RTT_cwnd/varyingObjectsize.py`:
  - the run plan, with its large-object skip rule;
  - the setup-name template and its parse;
  - metric extraction from the array-form qlog of picoquic and the stream-form sqlog of quiche.
- `CrTracePhases` covers `cr_trace_phases/cr_trace_phases_qlog2csv.py`:
  - the `cr_phase` event filter;
  - a `Frame` class for the data frame the script grows and rewrites in place;
  - the phase and trigger decoding tables.
- `VostdEval` covers `varyingObjectsize_transmissionDuration/vostd_eval.py`:
  - the file-name parse and `size_to_bytes`;
  - qlog and sqlog duration extraction;
  - extension dispatch and the prepended result rows.
- `VostdRun` covers `varyingObjectsize_transmissionDuration/vostd_run.py`:
  - size conversion, server-port dispatch, `find_file`;
  - the artifact rename in `get_qlog` and the `find` pattern in `delete_qlog`;
  - `who -q` classification;
  - the trial counter and trial-name template of `main`.
- `VostdAgreement` covers cross-file properties of the runner and evaluator
  of the transmission-duration experiment.
- `Hystart` covers `hystart/hystartEval.py`:
  - the three-phase quiche scan over one shared file iterator, a `LineFile` class;
  - the first-match picoquic scan;
  - the per-line Linux dmesg scan;
  - the custom operator ordering.

Loops in the scripts are Dafny methods. Each method is proved equal to a
recursive specification function, and lemmas state the properties of
those functions. Regular-expression captures and timestamp parsing
(`dateutil`) are parameters of type `string -> Option<T>`. JSON decoding
is a partial decoder parameter, `string -> Option<Value>`.

## Model

| member | source | states |
|---|---|---|
| Json.Lookup | cr_trace_phases/cr_trace_phases_qlog2csv.py:11 | a dict lookup succeeds iff the key is present, returns a value stored under it, and raises KeyError otherwise |
| Json.LookupLast | cr_trace_phases/cr_trace_phases_qlog2csv.py:11 | among repeated member names the value of the last one is returned, as a decoded dict keeps it |
| Json.GetSpec | varyingObjectsize_RTT_cwnd/varyingObjectsize.py:144 | `obj[key]` succeeds iff the value is a dict holding the key, and then yields the value of the last member with that name; a dict without the key raises KeyError, any other value TypeError |
| Json.ItemSpec | varyingObjectsize_RTT_cwnd/varyingObjectsize.py:144 | `v[i]` on a list or string succeeds iff `-len <= i < len`, counting a negative index from the end; a list yields its item, a string the one-character string; otherwise IndexError on a list or string, KeyError on a dict, TypeError on anything else |
| Json.Length | varyingObjectsize_transmissionDuration/vostd_eval.py:50 | `len()` is defined exactly on lists, strings and dicts, and is never negative |
| Json.HasKey | varyingObjectsize_transmissionDuration/vostd_eval.py:73 | `key in obj` on an object is true exactly when some member has that key |
| Json.GetOrNoneSpec | varyingObjectsize_RTT_cwnd/varyingObjectsize.py:182 | `d.get(key)` is `d[key]` when the key is present and `None` when it is not; a value that is not a dict raises AttributeError |
| Strings.ParseNat | varyingObjectsize_transmissionDuration/vostd_run.py:461-465 | `int()` of an unsigned decimal string succeeds iff the string is digits with single underscores between digits; the value is that of the digits with the underscores skipped, and plain digits give their decimal value |
| Strings.PyIntGrouped | varyingObjectsize_transmissionDuration/vostd_run.py:461-465 | `int()` of an underscore-grouped digit string gives the value of its digits |
| Strings.UnderscoreIgnored | varyingObjectsize_transmissionDuration/vostd_run.py:461-465 | an underscore between two runs of digits does not change what `int()` reads: `int("1_000") == int("1000")` |
| Strings.GroupedValueOfDigits | varyingObjectsize_transmissionDuration/vostd_run.py:461-465 | without underscores the grouped value is the plain decimal value |
| Json.Trunc | varyingObjectsize_RTT_cwnd/varyingObjectsize.py:157 | `int()` of a real truncates toward zero, for positive and negative values |
| Json.IntOfSpec | varyingObjectsize_RTT_cwnd/varyingObjectsize.py:157 | `int()` of a number is within 1 of it, toward zero; `True`/`False` give 1/0; a digit string gives its decimal value; it fails exactly on `None`, lists, dicts and unparsable strings, with TypeError unless the value is a string |
| Json.IntOfWhole | varyingObjectsize_RTT_cwnd/varyingObjectsize.py:157 | a whole number converts to itself |
| Json.Times1000Spec | varyingObjectsize_RTT_cwnd/varyingObjectsize.py:188-193 | `* 1000` fails exactly on `None` and dicts, with TypeError; a number (a boolean as 0 or 1) is multiplied by 1000; a string or list becomes 1000 copies of itself, position k holding element k mod its length |
| Json.RepeatAt | varyingObjectsize_RTT_cwnd/varyingObjectsize.py:188-193 | `s * n` has position k equal to `s[k % len(s)]` |
| Json.MinusSpec | varyingObjectsize_transmissionDuration/vostd_eval.py:52 | a successful `a - b` is the difference that added to `b` gives `a`; any failure is TypeError |
| Json.ElementsSpec | varyingObjectsize_RTT_cwnd/varyingObjectsize.py:149 | `for x in v` visits the characters of a string and the keys of a dict in order; each visited key of a dict with distinct names reads back its own value; numbers, booleans and `None` raise TypeError |
| Json.TraceEventsSpec | varyingObjectsize_RTT_cwnd/varyingObjectsize.py:144-146 | the loop visits what iterating `doc["traces"][0]["events"]` gives: the items when it is a list; it fails iff one of the three lookups or the iteration fails, with KeyError, IndexError or TypeError |
| Sorting.SortBy | heatmap/datarate-latency-heatmap.py:156 | the result is sorted by the key and is a permutation of the input |
| Sorting.SortByStable | heatmap/datarate-latency-heatmap.py:156 | the sort is stable: the elements with any one key are those of the input, in input order |
| Heatmap.BdpClosedForm | heatmap/datarate-latency-heatmap.py:27-28 | `calculateBdp(r, d)` equals `r*d*125` for whole rates and delays |
| Heatmap.BdpExample | heatmap/datarate-latency-heatmap.py:27-28 | a 100 Mbit/s link with 100 ms delay has a BDP of 1,250,000 bytes |
| Heatmap.BdpMonotone | heatmap/datarate-latency-heatmap.py:27-28 | the BDP does not decrease when rate or delay grows |
| Heatmap.NetemLimitClosedForm | heatmap/datarate-latency-heatmap.py:31-33 | the netem limit `int(2*bdp(r, 2*owd)/1300)` equals `floor(5*r*owd/13)` |
| Heatmap.NetemLimitZero | heatmap/datarate-latency-heatmap.py:31-33 | the limit is not clamped: it is 0 exactly when `r*owd < 3` |
| Heatmap.SweepLimits | heatmap/datarate-latency-heatmap.py:31-33 | every rate and delay of the sweep gets a limit of at least 19 packets (with lines 88-89) |
| Heatmap.RunIterations | heatmap/datarate-latency-heatmap.py:96-104 | the iteration loop runs one trial per iteration, as the plan says |
| Heatmap.RunDelays | heatmap/datarate-latency-heatmap.py:89-104 | the delay loop runs the plan for each one-way delay in order |
| Heatmap.RunMeasurements | heatmap/datarate-latency-heatmap.py:83-112 | the nested rate/delay/iteration loops run exactly the measurement plan |
| Heatmap.PlanIterationsConsistent | heatmap/datarate-latency-heatmap.py:45-51 | trial k of a cell has iteration k and the cell's netem limit; its object size and, with `cr`, the server's `PREVIOUS_CWND_BYTES` are both `bdp(r, 2*owd) = r*owd*250`, and `PREVIOUS_RTT` is `2*owd*1000`; without `cr` no server environment is set (with lines 94-98) |
| Heatmap.PlanDelaysConsistent | heatmap/datarate-latency-heatmap.py:89-104 | every trial of a rate row is consistent and uses that rate and one of the listed delays |
| Heatmap.PlanRatesConsistent | heatmap/datarate-latency-heatmap.py:88-104 | every planned trial is consistent and uses a listed rate and a listed delay |
| Heatmap.MeasurementPlanConsistent | heatmap/datarate-latency-heatmap.py:88-104 | every trial of the experiment uses a swept rate and delay, is consistent, and has a queue limit of at least 19 |
| Heatmap.RenameAll | heatmap/datarate-latency-heatmap.py:109-112 | every file matching `*.{role}.qlog` gets its `rate{r}_delay{owd}_` name, and every new name comes from such a file |
| Heatmap.RenameAllConcat | heatmap/datarate-latency-heatmap.py:109-112 | renaming a listing renames its parts one after the other, keeping listing order; a single file is renamed iff it matches |
| Heatmap.RenamedLogsMembers | heatmap/datarate-latency-heatmap.py:109-112 | the two role loops rename every `*.server.qlog` and `*.client.qlog` file of the listing and nothing else |
| Heatmap.RenamedLogsServerFirst | heatmap/datarate-latency-heatmap.py:109-112 | the server loop runs first: after the first renamed client qlog, every later new name is a client qlog |
| Heatmap.ClientTail | heatmap/datarate-latency-heatmap.py:121 | the hex group the regex settles on, after backtracking from the longest, is non-empty and no longer than the hex run available |
| Heatmap.HexAndTailOf | heatmap/datarate-latency-heatmap.py:121 | the regex tail recovers a lower-hex id from `<id>.client.qlog` |
| Heatmap.DelayAndTailOf | heatmap/datarate-latency-heatmap.py:121-125 | the regex middle recovers the one-way delay and the id |
| Heatmap.RateAndTailOf | heatmap/datarate-latency-heatmap.py:121-125 | the regex head recovers the rate, the delay and the id |
| Heatmap.MatchClientAtOf | heatmap/datarate-latency-heatmap.py:121-125 | matching at the start of a renamed name yields its rate, delay and id |
| Heatmap.ClientNameRoundTrip | heatmap/datarate-latency-heatmap.py:121-125 | the renamed client log `rate{r}_delay{owd}_{id}.client.qlog` parses back to `(r, owd, id)` (with line 111) |
| Heatmap.ServerLogs | heatmap/datarate-latency-heatmap.py:128 | the server glob returns exactly the logs named `rate{r}_delay{owd}_{id}.*.server.qlog` |
| Heatmap.CrStatusOf | heatmap/datarate-latency-heatmap.py:130-136 | the status is `safe_retreat` iff the server file mentions it, whatever the flag; otherwise `enabled` iff `cr` is set, else `disabled` |
| Heatmap.GoodputError | heatmap/datarate-latency-heatmap.py:152 | `float(goodput) / datarate` raises nothing iff `float` accepts the capture and the rate is not zero; ValueError exactly when `float` rejects it, ZeroDivisionError otherwise |
| Heatmap.FloatLiteralHasDigit | heatmap/datarate-latency-heatmap.py:140-152 | for a `[\d.]+` capture, "not made of points alone" is "holds a digit", so `FloatLiteral` is `float`'s rule: some digit and at most one point |
| Heatmap.LineRows | heatmap/datarate-latency-heatmap.py:139-154 | the file succeeds iff every line that carries the summary has a goodput `float` accepts and the rate is not zero, and then fails only with ValueError or ZeroDivisionError; on success every row carries the trial's rate, delay, `RTT = 2*owd`, BDP, connection id and status, and a file with no summary line gives no row |
| Heatmap.SummaryLinesMembers | heatmap/datarate-latency-heatmap.py:139-142 | the summary lines are exactly the lines the `Received … Mbps.` pattern is found in |
| Heatmap.LineRowsPerSummary | heatmap/datarate-latency-heatmap.py:139-154 | a file that succeeds gives exactly one row per summary line, in file order, and row j carries the byte count, duration and goodput captured from summary line j |
| Heatmap.LineRowsFirstError | heatmap/datarate-latency-heatmap.py:139-154 | a file fails with the exception of its first summary line whose goodput division raises |
| Heatmap.LineRowsFailureSticks | heatmap/datarate-latency-heatmap.py:139-154 | once a prefix of the lines fails, the remaining lines do not change the outcome |
| Heatmap.EvalClient | heatmap/datarate-latency-heatmap.py:119-154 | a client log fails iff its name does not match the pattern, the server lookup does not find exactly one file, or one of its summary lines fails the goodput division; the error is AttributeError, AssertionError, ValueError or ZeroDivisionError; its rows never carry the status the flag excludes |
| Heatmap.EvalLogs | heatmap/datarate-latency-heatmap.py:119-154 | no row produced with flag `cr` has the status that flag excludes |
| Heatmap.EvalResult | heatmap/datarate-latency-heatmap.py:115-156 | an error of the log loop is passed on; a frame with no rows fails the sort with KeyError; any other result is sorted by (datarate, delay) and is a permutation of the rows collected |
| Heatmap.EvalResultKeepsTies | heatmap/datarate-latency-heatmap.py:156 | rows with the same (datarate, delay) stay in the order the log loop gathered them |
| Heatmap.EvalLogsFailureSticks | heatmap/datarate-latency-heatmap.py:119-129 | once a client log fails, later logs do not change the outcome |
| Heatmap.ScanLines | heatmap/datarate-latency-heatmap.py:138-154 | the line loop collects exactly the rows `LineRows` gives and stops at the first line whose goodput division raises |
| Heatmap.ScanClient | heatmap/datarate-latency-heatmap.py:119-154 | one turn of the client loop computes exactly `EvalClient` |
| Heatmap.ScanFile | heatmap/datarate-latency-heatmap.py:119-154 | a listed file adds the rows of `EvalClient` when it is a client qlog and nothing otherwise |
| Heatmap.EvalLogsPrefix | heatmap/datarate-latency-heatmap.py:119-154 | extending the listing by one file adds that file's rows, passes on its error, or changes nothing for a non-client file |
| Heatmap.GatherStep | heatmap/datarate-latency-heatmap.py:119-154 | one turn of the client loop keeps the gathered rows equal to `EvalLogs` of the files seen, and a failing file is the result of the whole listing |
| Heatmap.GatherRows | heatmap/datarate-latency-heatmap.py:119-154 | the client loop computes exactly `EvalLogs` of the whole listing |
| Heatmap.RunEval | heatmap/datarate-latency-heatmap.py:115-158 | the evaluation computes the specified result, sorted by (datarate, delay) |
| Heatmap.EnabledRows | heatmap/datarate-latency-heatmap.py:168 | the query keeps exactly the `enabled` rows of the frame |
| Heatmap.EnabledRowsConcat | heatmap/datarate-latency-heatmap.py:168 | the query keeps frame order: it filters the parts of a frame one after the other, and keeps a single row iff it is enabled |
| Heatmap.PlotCheck | heatmap/datarate-latency-heatmap.py:164-170 | the plot assertions pass iff no row has the excluded status; with `cr` the frame left is the `enabled` query of the rows, so only `safe_retreat` rows are dropped; without `cr` all rows remain |
| Heatmap.EvalPassesPlot | heatmap/datarate-latency-heatmap.py:130-136 | rows produced by `runEval` with a flag always pass `runPlot`'s checks with the same flag (with lines 164-170) |
| VaryingObjectsize.PlanOperators | varyingObjectsize_RTT_cwnd/varyingObjectsize.py:105-121 | the operator loop plans one setup per operator, in order, with the given cc, size and iteration, and nothing else |
| VaryingObjectsize.PlanSizesMembers | varyingObjectsize_RTT_cwnd/varyingObjectsize.py:101-121 | the size loop plans exactly the listed sizes that the skip rule does not drop, for every operator |
| VaryingObjectsize.PlanCcsMembers | varyingObjectsize_RTT_cwnd/varyingObjectsize.py:64-121 | the cc loop plans exactly every listed cc with every kept size and operator |
| VaryingObjectsize.PlanMembers | varyingObjectsize_RTT_cwnd/varyingObjectsize.py:64-121 | a setup runs iff its operator, cc and size are listed, its iteration is in range, and 100e6 is not at iteration > 5 nor 300e6 at iteration > 2 (with lines 36-42) |
| VaryingObjectsize.RunOperators | varyingObjectsize_RTT_cwnd/varyingObjectsize.py:105-121 | the operator loop runs the planned setups |
| VaryingObjectsize.RunSizes | varyingObjectsize_RTT_cwnd/varyingObjectsize.py:101-121 | the size loop, with its skip, runs the planned setups |
| VaryingObjectsize.RunCcs | varyingObjectsize_RTT_cwnd/varyingObjectsize.py:64-121 | the cc loop runs the planned setups |
| VaryingObjectsize.RunImplementation | varyingObjectsize_RTT_cwnd/varyingObjectsize.py:64-121 | the whole loop nest runs exactly the plan |
| VaryingObjectsize.ParseSetup | varyingObjectsize_RTT_cwnd/varyingObjectsize.py:132-137 | a name with fewer than four `_` fields raises IndexError; a parse that succeeds had at least five (with lines 162-166) |
| VaryingObjectsize.TaggedNumberField | varyingObjectsize_RTT_cwnd/varyingObjectsize.py:136-137 | removing the `objsize`/`iter` tag from a tagged number gives that number back |
| VaryingObjectsize.SetupNameFields | varyingObjectsize_RTT_cwnd/varyingObjectsize.py:110 | a setup name splits on `_` into its five fields and contains no `.` or `/` (with line 117) |
| VaryingObjectsize.ParseSetupOfFields | varyingObjectsize_RTT_cwnd/varyingObjectsize.py:132-137 | a file whose base name is the setup name plus the extension parses to that setup |
| VaryingObjectsize.ResultFileNameRoundTrip | varyingObjectsize_RTT_cwnd/varyingObjectsize.py:132-137 | the stored `{impl}_{op}_{cc}_objsize{n}_iter{i}.qlog/.sqlog` parses back to `(op, cc, n, i)` when op and cc hold no `_`, `.` or `/` (with lines 110, 114, 117, 121, 162-166) |
| VaryingObjectsize.ThenAssociative | varyingObjectsize_RTT_cwnd/varyingObjectsize.py:146-158 | appending is associative, so the loop's order of appends does not change the list |
| VaryingObjectsize.PicoquicFieldRecords | varyingObjectsize_RTT_cwnd/varyingObjectsize.py:149-158 | a metrics event gives one record per field |
| VaryingObjectsize.PicoquicFieldRecordsSpec | varyingObjectsize_RTT_cwnd/varyingObjectsize.py:149-158 | the fields succeed iff every value converts with `int()`; record k carries the setup, the unscaled event time, field k's key and its truncated value |
| VaryingObjectsize.PicoquicEventRecords | varyingObjectsize_RTT_cwnd/varyingObjectsize.py:146-158 | events other than `recovery`/`metrics_updated` emit nothing; a metrics event emits the records of the fields of its `event[3]` dict, nothing for an empty `event[3]`, and TypeError when `event[3]` is not iterable |
| VaryingObjectsize.PicoquicRecordsCarry | varyingObjectsize_RTT_cwnd/varyingObjectsize.py:151-154 | every record of a qlog carries the file's setup |
| VaryingObjectsize.PicoquicRecordsSnoc | varyingObjectsize_RTT_cwnd/varyingObjectsize.py:146-158 | records follow event order: a further event appends its records |
| VaryingObjectsize.OtherEventsIgnored | varyingObjectsize_RTT_cwnd/varyingObjectsize.py:147 | an event that is not a metrics update adds nothing |
| VaryingObjectsize.MetricsEventAppends | varyingObjectsize_RTT_cwnd/varyingObjectsize.py:147-158 | a metrics event keeps the earlier records and appends exactly one record per element iterated in its `event[3]` |
| VaryingObjectsize.PicoquicPrefixFails | varyingObjectsize_RTT_cwnd/varyingObjectsize.py:146-158 | once an event raises, later events do not change the outcome |
| VaryingObjectsize.AppendPicoquicFields | varyingObjectsize_RTT_cwnd/varyingObjectsize.py:149-158 | the field loop appends the specified records |
| VaryingObjectsize.AppendEventRecords | varyingObjectsize_RTT_cwnd/varyingObjectsize.py:147-158 | one pass of the event loop appends that event's records |
| VaryingObjectsize.EvalPicoquicSingleFile | varyingObjectsize_RTT_cwnd/varyingObjectsize.py:131-159 | the qlog evaluation returns the specified records |
| VaryingObjectsize.QuicheFieldRecords | varyingObjectsize_RTT_cwnd/varyingObjectsize.py:183-194 | a metrics record gives one record per data field |
| VaryingObjectsize.QuicheFieldRecordsSpec | varyingObjectsize_RTT_cwnd/varyingObjectsize.py:182-194 | record k carries the setup, field k's key, the event time ×1000, and the value ×1000 exactly for `min_rtt`, `smoothed_rtt`, `latest_rtt` and `rtt_variance`, other values unchanged |
| VaryingObjectsize.QuicheChunkRecords | varyingObjectsize_RTT_cwnd/varyingObjectsize.py:175-197 | an empty chunk after strip and a chunk that does not decode give nothing; records come only from a `recovery:metrics_updated` record |
| VaryingObjectsize.QuicheChunkSpec | varyingObjectsize_RTT_cwnd/varyingObjectsize.py:180-194 | a decoded chunk that is not a dict raises AttributeError; one with another `name` gives nothing; a metrics record without `data` raises KeyError, with a dict `data` gives its field records, with an empty `data` nothing, and with a non-iterable `data` TypeError |
| VaryingObjectsize.QuicheChunksCarry | varyingObjectsize_RTT_cwnd/varyingObjectsize.py:184-187 | every record of an sqlog carries the file's setup |
| VaryingObjectsize.QuicheChunksSnoc | varyingObjectsize_RTT_cwnd/varyingObjectsize.py:175-197 | records follow chunk order |
| VaryingObjectsize.QuicheChunksConcat | varyingObjectsize_RTT_cwnd/varyingObjectsize.py:174-197 | the records of two runs of chunks are the records of the first followed by those of the second |
| VaryingObjectsize.MalformedChunkSkipped | varyingObjectsize_RTT_cwnd/varyingObjectsize.py:179-197 | a chunk that fails to decode is skipped and the chunks after it are still processed |
| VaryingObjectsize.QuicheChunksPrefixFails | varyingObjectsize_RTT_cwnd/varyingObjectsize.py:175-197 | once a chunk raises, later chunks do not change the outcome |
| VaryingObjectsize.AppendQuicheFields | varyingObjectsize_RTT_cwnd/varyingObjectsize.py:183-194 | the field loop appends the specified records |
| VaryingObjectsize.AppendChunkRecords | varyingObjectsize_RTT_cwnd/varyingObjectsize.py:176-197 | one pass of the chunk loop appends that chunk's records |
| VaryingObjectsize.EvalQuicheSingleFile | varyingObjectsize_RTT_cwnd/varyingObjectsize.py:161-198 | the sqlog evaluation returns the specified records |
| VaryingObjectsize.FileRecordsCarrySetup | varyingObjectsize_RTT_cwnd/varyingObjectsize.py:131-137 | every record of either format carries the operator, cc, size and iteration parsed from its own file name (with lines 151-154, 161-166, 184-187) |
| CrTracePhases.RowOf | cr_trace_phases/cr_trace_phases_qlog2csv.py:21 | the row built from an event's values has exactly its keys as columns |
| CrTracePhases.MergeColumns | cr_trace_phases/cr_trace_phases_qlog2csv.py:23 | concatenation keeps the old columns first, adds the new keys, and keeps the columns distinct |
| CrTracePhases.AppendRowWellFormed | cr_trace_phases/cr_trace_phases_qlog2csv.py:23 | appending a row keeps every row's keys among the frame's distinct columns |
| CrTracePhases.SetColumn | cr_trace_phases/cr_trace_phases_qlog2csv.py:41 | inserting a column adds it to every row with the given value and leaves every other cell as it was |
| CrTracePhases.Lookup | cr_trace_phases/cr_trace_phases_qlog2csv.py:44-57 | a code in the table maps to its name; any other value passes through unchanged |
| CrTracePhases.DecodeRows | cr_trace_phases/cr_trace_phases_qlog2csv.py:44-57 | decoding a column changes only that column, by the table, and keeps every row's keys |
| CrTracePhases.ReplaceRows | cr_trace_phases/cr_trace_phases_qlog2csv.py:45 | one `replace` rewrites exactly the cells of the column equal to the code, to the name; rows, keys and every other cell are kept |
| CrTracePhases.ReplaceAll | cr_trace_phases/cr_trace_phases_qlog2csv.py:44-57 | the sequence of `replace` calls keeps the number of rows |
| CrTracePhases.LookupNames | cr_trace_phases/cr_trace_phases_qlog2csv.py:44-57 | a decoded name is never itself a code of the same table |
| CrTracePhases.ReplaceAllDecodes | cr_trace_phases/cr_trace_phases_qlog2csv.py:44-57 | the chain of single-code `replace` calls equals decoding the column through the table |
| CrTracePhases.DecodeIdempotent | cr_trace_phases/cr_trace_phases_qlog2csv.py:44-57 | decoding an already-decoded column changes nothing |
| CrTracePhases.CodeTablesHaveNoChains | cr_trace_phases/cr_trace_phases_qlog2csv.py:44-57 | in both the phase table (0..4, 100) and the trigger table (0..5) no name is also a code |
| CrTracePhases.PhaseValues | cr_trace_phases/cr_trace_phases_qlog2csv.py:14-21 | only `recovery`/`cr_phase` events contribute, and what they contribute is the members of their `event[3]` dict (none for an empty list) |
| CrTracePhases.PhaseValuesSpec | cr_trace_phases/cr_trace_phases_qlog2csv.py:14-21 | an event contributes iff it is a list of at least four items with `recovery`, `cr_phase` and a dict (or an empty list) as `event[3]`; it is skipped iff `event[1]` reads and differs from `recovery` or `event[2]` reads and differs from `cr_phase`; errors are KeyError, IndexError, TypeError, AttributeError or ValueError |
| CrTracePhases.PhaseFrame | cr_trace_phases/cr_trace_phases_qlog2csv.py:13-23 | the grown frame is well formed, and it has columns iff it has rows |
| CrTracePhases.OtherEventsIgnored | cr_trace_phases/cr_trace_phases_qlog2csv.py:15 | an event that is not a cr_phase event adds no row |
| CrTracePhases.PhaseEventAppends | cr_trace_phases/cr_trace_phases_qlog2csv.py:15-23 | each cr_phase event appends exactly one row, after the earlier ones |
| CrTracePhases.DecodeCodes | cr_trace_phases/cr_trace_phases_qlog2csv.py:44-57 | decoding fails with KeyError iff `old` or `new` is missing; otherwise every `old`/`new` cell becomes its phase name, every `trigger` cell its trigger name when `trigger` is a column, and all other cells, columns and row keys are kept |
| CrTracePhases.Finish | cr_trace_phases/cr_trace_phases_qlog2csv.py:38-58 | an empty frame is returned as is; otherwise `filename` becomes the first column, and the step succeeds iff `filename` is not yet a column and `old` and `new` are |
| CrTracePhases.FinishLabelsRows | cr_trace_phases/cr_trace_phases_qlog2csv.py:41-57 | every row gets the file name, and fields other than `old`, `new` and `trigger` pass through unchanged |
| CrTracePhases.FinishWellFormed | cr_trace_phases/cr_trace_phases_qlog2csv.py:41 | the finished frame is well formed with `filename` first and only once |
| CrTracePhases.FinishDecodesPhases | cr_trace_phases/cr_trace_phases_qlog2csv.py:41-57 | the finished frame keeps the row count; each `old`/`new` value is the phase name of the input value and no longer a phase code, and each `trigger` value the trigger name |
| CrTracePhases.EvalSingleFileShape | cr_trace_phases/cr_trace_phases_qlog2csv.py:7-58 | a file without cr_phase events gives an empty frame with no columns, which the caller skips; otherwise `filename` is the first column (with lines 72-74) |
| CrTracePhases.Frame.constructor | cr_trace_phases/cr_trace_phases_qlog2csv.py:13 | a new frame is empty |
| CrTracePhases.Frame.Concat | cr_trace_phases/cr_trace_phases_qlog2csv.py:21-23 | concatenation appends the event's row to the frame |
| CrTracePhases.Frame.Insert | cr_trace_phases/cr_trace_phases_qlog2csv.py:41 | `insert(0, col, v)` raises ValueError on an existing column and otherwise puts the column first, set to v in every row |
| CrTracePhases.Frame.Replace | cr_trace_phases/cr_trace_phases_qlog2csv.py:45 | `df[col].replace(code, name, inplace=True)` raises KeyError on a missing column and otherwise rewrites that column in place |
| CrTracePhases.Frame.ReplaceCodes | cr_trace_phases/cr_trace_phases_qlog2csv.py:44-57 | the run of replaces over one table rewrites the column as the specification says |
| CrTracePhases.Frame.ReplaceAllCodes | cr_trace_phases/cr_trace_phases_qlog2csv.py:44-57 | the in-place decoding of `old`, `new` and, if present, `trigger` yields the decoded table or the KeyError |
| CrTracePhases.Frame.LabelAndDecode | cr_trace_phases/cr_trace_phases_qlog2csv.py:38-58 | the in-place tail of `evalSingleFile` yields the specified finished frame |
| CrTracePhases.ScanEvents | cr_trace_phases/cr_trace_phases_qlog2csv.py:13-23 | the event loop grows a fresh frame to the specified content |
| CrTracePhases.PhaseFrameStep | cr_trace_phases/cr_trace_phases_qlog2csv.py:14-23 | one more event appends its row, is skipped when it is not a cr_phase event, or makes the frame fail with its error |
| CrTracePhases.RunEvalSingleFile | cr_trace_phases/cr_trace_phases_qlog2csv.py:7-58 | `evalSingleFile` returns the specified frame |
| CrTracePhases.PhaseFramePrefixFails | cr_trace_phases/cr_trace_phases_qlog2csv.py:14-23 | once an event raises, later events do not change the outcome |
| VostdEval.ProcessFileName | varyingObjectsize_transmissionDuration/vostd_eval.py:14-21 | succeeds iff the stem has three `_` fields and the name has a second `.` field, else IndexError; provider and algorithm hold no `_`, `.` or `/`, and size no `.` or `/` |
| VostdEval.SplitOfTemplate | varyingObjectsize_transmissionDuration/vostd_eval.py:16-18 | for `stem.size<tail>` the `.` split gives the stem first and the size second |
| VostdEval.ProcessFileNameOfTemplate | varyingObjectsize_transmissionDuration/vostd_eval.py:14-21 | a path ending in `f0_f1_f2.size<tail>` parses to `(f0, size, f2)` |
| VostdEval.UnitFactor | varyingObjectsize_transmissionDuration/vostd_eval.py:24 | the unit table knows exactly KB, MB and GB, else KeyError |
| VostdEval.SizeToBytes | varyingObjectsize_transmissionDuration/vostd_eval.py:23-26 | the number before the last two characters times the unit's factor; ValueError when the number does not parse |
| VostdEval.SizeToBytesOfUnit | varyingObjectsize_transmissionDuration/vostd_eval.py:23-26 | `NKB`, `NMB`, `NGB` give N·10³, N·10⁶, N·10⁹ |
| VostdEval.SizeToBytesUnknownUnit | varyingObjectsize_transmissionDuration/vostd_eval.py:23-26 | any other two-letter unit raises KeyError |
| VostdEval.Prepend | varyingObjectsize_transmissionDuration/vostd_eval.py:82-84 | a new row goes in front of the frame; no row leaves it unchanged (with line 52) |
| VostdEval.QlogRow | varyingObjectsize_transmissionDuration/vostd_eval.py:28-53 | a bad name raises IndexError; a file that does not load adds no row; a loaded file adds exactly one |
| VostdEval.QlogDurationSpec | varyingObjectsize_transmissionDuration/vostd_eval.py:49-52 | a duration is the time of event `len-2` minus that of event 0 of a non-empty event list; an empty list raises IndexError and a dict KeyError |
| VostdEval.QlogRowSpec | varyingObjectsize_transmissionDuration/vostd_eval.py:46-52 | the row carries the name's provider and algorithm, the size in bytes, and the time of the second-to-last event minus that of the first (with line 30) |
| VostdEval.QlogWithoutEvents | varyingObjectsize_transmissionDuration/vostd_eval.py:49 | a trace without events raises IndexError |
| VostdEval.FramesOfSpec | varyingObjectsize_transmissionDuration/vostd_eval.py:75 | the frames loop visits what iterating `record["data"]["frames"]` gives, the items when it is a list; it fails iff a lookup or the iteration fails, with KeyError or TypeError |
| VostdEval.CloseTimeOfFramesSpec | varyingObjectsize_transmissionDuration/vostd_eval.py:75-77 | a completed frame loop takes a time iff some frame is a `connection_close`, and that time is the record's `time` |
| VostdEval.RecordCloseTime | varyingObjectsize_transmissionDuration/vostd_eval.py:73-77 | a close time comes only from an object record |
| VostdEval.RecordCloseTimeSpec | varyingObjectsize_transmissionDuration/vostd_eval.py:73-77 | a record sets the end time iff it is a `transport:packet_received` event with a `connection_close` frame, and then to its `time` |
| VostdEval.LineRecord | varyingObjectsize_transmissionDuration/vostd_eval.py:61-64 | one leading U+001E is dropped before decoding; an empty line raises |
| VostdEval.LineEffectOf | varyingObjectsize_transmissionDuration/vostd_eval.py:61-77 | a line abandons the file exactly when it does not decode; otherwise it yields the size in bytes and any close time |
| VostdEval.Effects | varyingObjectsize_transmissionDuration/vostd_eval.py:60 | one effect per line, in order |
| VostdEval.ScanContinues | varyingObjectsize_transmissionDuration/vostd_eval.py:60-77 | while every line decodes, the byte size is the last line's, set iff there was a line |
| VostdEval.ScanLast | varyingObjectsize_transmissionDuration/vostd_eval.py:60-77 | a scan still going after a line was going before it and read that line; the line rebinds `connection_end` only if it closes |
| VostdEval.ScanEnd | varyingObjectsize_transmissionDuration/vostd_eval.py:73-77 | `connection_end` is set iff some line closes, and then it is the last closing line's time |
| VostdEval.ScanPrefixStops | varyingObjectsize_transmissionDuration/vostd_eval.py:63-67 | an undecodable line ends the scan: later lines do not matter |
| VostdEval.EffectsPrefix | varyingObjectsize_transmissionDuration/vostd_eval.py:60 | the effects of a prefix are the prefix of the effects |
| VostdEval.CloseTime | varyingObjectsize_transmissionDuration/vostd_eval.py:73-77 | the time of a closing line is its record's `time` |
| VostdEval.LastClosingLine | varyingObjectsize_transmissionDuration/vostd_eval.py:73-77 | the last closing effect corresponds to the last closing line and its time |
| VostdEval.NoClosingLine | varyingObjectsize_transmissionDuration/vostd_eval.py:73-77 | with no end time, no line closes the connection |
| VostdEval.SqlogRow | varyingObjectsize_transmissionDuration/vostd_eval.py:55-85 | a bad name raises IndexError; no row is added only when the scan was abandoned |
| VostdEval.RowOfScan | varyingObjectsize_transmissionDuration/vostd_eval.py:79-85 | no row exactly when the scan was abandoned; the only errors are UnboundLocalError (no line or no close read) and TypeError (a time that is not a number); the row size is the byte count the loop last computed |
| VostdEval.SqlogRowSpec | varyingObjectsize_transmissionDuration/vostd_eval.py:73-83 | the row carries the name's provider and algorithm, the size in bytes, and `int(t*1000)` for the time t of the last closing line (with lines 57, 70) |
| VostdEval.SqlogWithoutClose | varyingObjectsize_transmissionDuration/vostd_eval.py:77-83 | a file read to the end without a closing line raises UnboundLocalError |
| VostdEval.SqlogAbandoned | varyingObjectsize_transmissionDuration/vostd_eval.py:63-67 | one undecodable line abandons the whole file, which adds no row |
| VostdEval.Extension | varyingObjectsize_transmissionDuration/vostd_eval.py:107 | `splitext` gives either nothing or a `.`-led suffix of the base name with no further `.` |
| VostdEval.ExtensionOfName | varyingObjectsize_transmissionDuration/vostd_eval.py:107 | `dir/stem.ext` has extension `.ext` |
| VostdEval.Text | varyingObjectsize_transmissionDuration/vostd_eval.py:34 | the text of a one-line file is that line |
| VostdEval.FileRow | varyingObjectsize_transmissionDuration/vostd_eval.py:106-111 | `.qlog` goes to the qlog reader, `.sqlog` to the sqlog reader, any other extension adds nothing |
| VostdEval.Produced | varyingObjectsize_transmissionDuration/vostd_eval.py:106-111 | at most one row per file |
| VostdEval.Reversed | varyingObjectsize_transmissionDuration/vostd_eval.py:82-84 | prepending reverses: element i is the input's element from the end (with line 52) |
| VostdEval.CollectSpec | varyingObjectsize_transmissionDuration/vostd_eval.py:106-111 | the frame is built iff no file raises, and it holds the rows in reverse file order (with lines 52, 82-84) |
| VostdEval.FrameSpec | varyingObjectsize_transmissionDuration/vostd_eval.py:106-111 | the frame is built iff no file raises; it holds the rows of the files newest first, at most one per file (with line 89) |
| VostdEval.ProducedFrom | varyingObjectsize_transmissionDuration/vostd_eval.py:106-111 | every produced row comes from some file |
| VostdEval.ProducedFromDataFiles | varyingObjectsize_transmissionDuration/vostd_eval.py:106-111 | every row comes from a `.qlog` or `.sqlog` file |
| VostdEval.OtherExtensionIgnored | varyingObjectsize_transmissionDuration/vostd_eval.py:106-111 | a file with another extension leaves the frame unchanged |
| VostdEval.RowPrepended | varyingObjectsize_transmissionDuration/vostd_eval.py:82-84 | a file that adds a row puts it in front of the frame (with line 52) |
| VostdEval.DurationTable.constructor | varyingObjectsize_transmissionDuration/vostd_eval.py:89 | the frame starts empty |
| VostdEval.DurationTable.ProcessQlog | varyingObjectsize_transmissionDuration/vostd_eval.py:28-53 | `process_qlog` prepends the specified row to the global frame, or raises and leaves it |
| VostdEval.DurationTable.ProcessSqlog | varyingObjectsize_transmissionDuration/vostd_eval.py:55-85 | `process_sqlog` prepends the specified row to the global frame, or raises and leaves it |
| VostdEval.ReadLines | varyingObjectsize_transmissionDuration/vostd_eval.py:60-77 | the line loop computes the specified scan |
| VostdEval.ReadLine | varyingObjectsize_transmissionDuration/vostd_eval.py:61-77 | one pass of the line loop is one scan step |
| VostdEval.RecordEnd | varyingObjectsize_transmissionDuration/vostd_eval.py:73-77 | the `name` checks and the frame loop compute the record's close time |
| VostdEval.CloseTimeLoop | varyingObjectsize_transmissionDuration/vostd_eval.py:75-77 | the frame loop gives the specified close time or the first error |
| VostdEval.CloseTimeStep | varyingObjectsize_transmissionDuration/vostd_eval.py:75-77 | one more frame fails on a missing `frame_type`, or on a close frame with no readable `time`; a close frame sets the time; any other frame keeps it |
| VostdEval.FramesPrefixFails | varyingObjectsize_transmissionDuration/vostd_eval.py:75-77 | once a frame raises, later frames do not matter |
| VostdEval.ProcessFile | varyingObjectsize_transmissionDuration/vostd_eval.py:107-111 | one file: a `.qlog` or `.sqlog` file prepends its specified row or raises with the table unchanged; any other file leaves the table alone |
| VostdEval.ProcessFiles | varyingObjectsize_transmissionDuration/vostd_eval.py:106-111 | the dispatch loop computes the specified frame |
| VostdEval.FrameStep | varyingObjectsize_transmissionDuration/vostd_eval.py:106-111 | one more file prepends its row, leaves the table alone or makes the whole run fail with that file's error |
| VostdEval.FramePrefixFails | varyingObjectsize_transmissionDuration/vostd_eval.py:106-111 | once a file raises, the later files do not change the outcome |
| VostdRun.ConvertSizeToBytes | varyingObjectsize_transmissionDuration/vostd_run.py:458-467 | a string containing none of KB, MB, GB raises ValueError, and ValueError is the only error |
| VostdRun.ConvertOfUnit | varyingObjectsize_transmissionDuration/vostd_run.py:458-467 | `NKB`, `NMB`, `NGB` give N·1024, N·1024², N·1024³ |
| VostdRun.LetterAbsent | varyingObjectsize_transmissionDuration/vostd_run.py:460-464 | a size with one unit contains no other unit, so the KB/MB/GB order of checks does not matter for it |
| VostdRun.ServerSetting | varyingObjectsize_transmissionDuration/vostd_run.py:235 | `endpoints["server"][key]` is the stored port, or KeyError |
| VostdRun.DetermineServerPort | varyingObjectsize_transmissionDuration/vostd_run.py:233-244 | the port is chosen by substring with precedence picoquic, quiche, http2; any other name raises |
| VostdRun.FindFile | varyingObjectsize_transmissionDuration/vostd_run.py:267-271 | returns the first listed name with the suffix and, unless the prefix is empty, the prefix; None iff no name qualifies |
| VostdRun.RoleName | varyingObjectsize_transmissionDuration/vostd_run.py:307-315 | the role is `server` exactly for the server VM, else `client` |
| VostdRun.ArtifactKind | varyingObjectsize_transmissionDuration/vostd_run.py:306-315 | a known suffix maps to one of log, sqlog, qlog, key, csv |
| VostdRun.ArtifactKindOfSuffix | varyingObjectsize_transmissionDuration/vostd_run.py:306-315 | `.txt` maps to `log` and each other known suffix to itself |
| VostdRun.TxtArtifact | varyingObjectsize_transmissionDuration/vostd_run.py:306-307 | `.txt` files are stored as `{role}.log` |
| VostdRun.SqlogArtifact | varyingObjectsize_transmissionDuration/vostd_run.py:308-309 | `.sqlog` files are stored as `{role}.sqlog` |
| VostdRun.QlogArtifact | varyingObjectsize_transmissionDuration/vostd_run.py:310-311 | `.qlog` files, which `.sqlog` does not shadow, are stored as `{role}.qlog` |
| VostdRun.KeyArtifact | varyingObjectsize_transmissionDuration/vostd_run.py:312-313 | `.key` files are stored as `{role}.key` |
| VostdRun.CsvArtifact | varyingObjectsize_transmissionDuration/vostd_run.py:314-315 | `.csv` files are stored as `{role}.csv` |
| VostdRun.PathJoin | varyingObjectsize_transmissionDuration/vostd_run.py:304 | the joined path ends in the name (with line 317) |
| VostdRun.CopyFiles | varyingObjectsize_transmissionDuration/vostd_run.py:303-318 | at most one copy per listed file, one for each when no step fails; a failure leaves no extension |
| VostdRun.CopyFilesKnown | varyingObjectsize_transmissionDuration/vostd_run.py:303-318 | when every suffix is known, file i is copied to `{new_name}.{role}.{kind}` |
| VostdRun.CopyFilesKnownLast | varyingObjectsize_transmissionDuration/vostd_run.py:303-318 | a file with a known suffix after a run without failure adds its own copy and rebinds `extension` |
| VostdRun.StaleExtension | varyingObjectsize_transmissionDuration/vostd_run.py:303-318 | an unknown suffix reuses the previous file's extension and overwrites its local copy |
| VostdRun.UnboundExtension | varyingObjectsize_transmissionDuration/vostd_run.py:303-318 | an unknown first suffix raises UnboundLocalError, caught for that VM, and nothing is copied (with lines 325-326) |
| VostdRun.FailedStays | varyingObjectsize_transmissionDuration/vostd_run.py:303-326 | once the copy loop fails, later files do not change the outcome |
| VostdRun.CopyArtifacts | varyingObjectsize_transmissionDuration/vostd_run.py:303-318 | the copy loop performs the specified copies |
| VostdRun.FetchAll | varyingObjectsize_transmissionDuration/vostd_run.py:280-326 | at most one copy per listed file |
| VostdRun.FetchServerThenClient | varyingObjectsize_transmissionDuration/vostd_run.py:280-318 | with known suffixes, the server's files go to `{name}.server.{kind}`, then the client's to `{name}.client.{kind}` |
| VostdRun.FetchTwo | varyingObjectsize_transmissionDuration/vostd_run.py:280-326 | the client's loop starts from whatever extension the server's loop left |
| VostdRun.GetQlog | varyingObjectsize_transmissionDuration/vostd_run.py:274-326 | the VM loop performs the specified copies |
| VostdRun.NameClauses | varyingObjectsize_transmissionDuration/vostd_run.py:436 | one `-name '*.{ext}'` clause per extension, in order |
| VostdRun.QuotedPieces | varyingObjectsize_transmissionDuration/vostd_run.py:435-436 | the quote-delimited pieces of the pattern alternate separators and globs |
| VostdRun.PatternPieces | varyingObjectsize_transmissionDuration/vostd_run.py:435-436 | splitting the pattern at quotes gives exactly those pieces |
| VostdRun.DeletePatternClauses | varyingObjectsize_transmissionDuration/vostd_run.py:432-439 | the `find` pattern quotes exactly `*.qlog`, `*.sqlog`, `*.log`, `*.txt`, `*.key`, `*.csv`, in that order, joined by ` -o ` |
| VostdRun.AllSameIsOneDistinct | varyingObjectsize_transmissionDuration/vostd_run.py:177 | the names are all the same iff the set of names has one element |
| VostdRun.ClassifyWho | varyingObjectsize_transmissionDuration/vostd_run.py:156-196 | fewer than two lines is unexpected; a count with no `=` raises IndexError; count > 1 with distinct users is an error on the client and a warning elsewhere; count > 1 with one user is info; otherwise a single user |
| VostdRun.ClassifyWhoSpec | varyingObjectsize_transmissionDuration/vostd_run.py:156-196 | with two lines: no `=` raises IndexError; an unparsable count is reported as such; a count above 1 is one user when all names agree and many users otherwise; a count of at most 1 is the first user, and IndexError when no name was listed |
| VostdRun.ClassifyWhoOutput | varyingObjectsize_transmissionDuration/vostd_run.py:156-196 | well-formed `who -q` output with names and `# users=N` is classified by N and by whether the names are all the same |
| VostdRun.CountValue | varyingObjectsize_transmissionDuration/vostd_run.py:166-169 | a printed count parses back to itself |
| VostdRun.WhoReports | varyingObjectsize_transmissionDuration/vostd_run.py:145-196 | at most one report per VM, and an unreadable count ends the loop |
| VostdRun.WhoStep | varyingObjectsize_transmissionDuration/vostd_run.py:146-196 | a VM step fails only with IndexError or by passing on a later failure |
| VostdRun.GetWho | varyingObjectsize_transmissionDuration/vostd_run.py:145-196 | the VM loop, with its early return, computes the specified reports |
| VostdRun.WhoStepContinues | varyingObjectsize_transmissionDuration/vostd_run.py:145-196 | a VM that is not an endpoint is skipped; a classified VM adds its report, and an unreadable count also ends the loop; a failing VM ends it with its error |
| VostdRun.Round | varyingObjectsize_transmissionDuration/vostd_run.py:100-136 | one trial name per test case, `{server}_{client}_{cc}.{size}.itr{itr}` |
| VostdRun.SweepLength | varyingObjectsize_transmissionDuration/vostd_run.py:99-104 | one iteration runs sizes × test cases trials |
| VostdRun.ScheduleLength | varyingObjectsize_transmissionDuration/vostd_run.py:95-104 | the whole run has `len(testcases)*NUM_ITR*len(sizes)` trials |
| VostdRun.SweepAt | varyingObjectsize_transmissionDuration/vostd_run.py:99-136 | trial s·T+t of an iteration is test case t with size s |
| VostdRun.RunTrials | varyingObjectsize_transmissionDuration/vostd_run.py:95-136 | the nested loops run exactly the schedule and `run_num` ends at `run_tot`; a failure is the port lookup of some test case (with lines 233-244) |
| VostdRun.RunSweep | varyingObjectsize_transmissionDuration/vostd_run.py:98-136 | one iteration runs a round per object size in order, counting every trial it starts; a failure is the port lookup of some test case |
| VostdRun.RunRound | varyingObjectsize_transmissionDuration/vostd_run.py:99-136 | one object size runs a trial per test case in order, named `{server}_{client}_{cc}.{size}.itr{itr}`, counting each; a server without a port stops the round |
| VostdAgreement.TrialArtifactParses | varyingObjectsize_transmissionDuration/vostd_run.py:303-318 | a stored `.qlog`/`.sqlog` artifact of a trial is dispatched by its extension, and `process_file_name` (vostd_eval.py:14-21) recovers the trial's server, size string and cc (with line 136) |
| VostdAgreement.TrialArtifactFields | varyingObjectsize_transmissionDuration/vostd_eval.py:14-21 | `process_file_name` on the stored artifact path gives the trial's server, size string and cc |
| VostdAgreement.TrialArtifactExtension | varyingObjectsize_transmissionDuration/vostd_eval.py:106-111 | the stored artifact path has extension `.qlog` or `.sqlog` as stored |
| VostdAgreement.TrialNameFields | varyingObjectsize_transmissionDuration/vostd_run.py:136 | the trial name plus extension is `f0_f1_f2.size.itrN.ext` |
| VostdAgreement.TrialStem | varyingObjectsize_transmissionDuration/vostd_run.py:136 | the stored stem contains no `/` and is not all dots (with line 317) |
| VostdAgreement.SizeUnitsDisagree | varyingObjectsize_transmissionDuration/vostd_run.py:458-467 | the runner reads `NKB` as N·1024 bytes and the evaluator (vostd_eval.py:23-26) as N·1000; the two differ iff N > 0 |
| Hystart.LineFile.constructor | hystart/hystartEval.py:29 | a freshly opened file is at its first line |
| Hystart.LineFile.Next | hystart/hystartEval.py:121 | `next()` yields the current line and advances, or yields nothing at the end (with lines 128, 163) |
| Hystart.FirstFrom | hystart/hystartEval.py:37-59 | the first index from a position whose line matches, if any; no line before it matches |
| Hystart.ScanUntil | hystart/hystartEval.py:37-59 | a `for … break` loop on the shared iterator stops at the first matching line after the current position and leaves the iterator just past it, or at the end |
| Hystart.CaptureAt | hystart/hystartEval.py:40 | a capture on a found line raises AttributeError iff the regex does not match; no found line means no value (with lines 48, 51, 57) |
| Hystart.OperatorRank | hystart/hystartEval.py:14 | listed operators rank 1..6; any other operator ranks after them |
| Hystart.OperatorRanks | hystart/hystartEval.py:14 | Konnect < Skydsl < Astra < Tooway < NetEm < Starlink < unlisted |
| Hystart.ByOperator | hystart/hystartEval.py:74-76 | the rows are a permutation ordered by operator rank; a frame with no rows fails the sort with KeyError (with lines 180-182) |
| Hystart.QuichePhases | hystart/hystartEval.py:37-59 | the css line is found only after the New connection line, and the fin line only after the css line |
| Hystart.QuichePhasesFirst | hystart/hystartEval.py:37-59 | each phase finds the first matching line after the previous phase, and finds one iff such a line exists; a missed phase makes all later ones miss |
| Hystart.QuicheName | hystart/hystartEval.py:24-27 | a name with fewer than three `_` fields raises IndexError |
| Hystart.QuicheNameRoundTrip | hystart/hystartEval.py:24-27 | `data/…_{op}_{x}_iter{i}.rustlog` gives operator op (third from last) and iteration i |
| Hystart.QuicheRecord | hystart/hystartEval.py:24-72 | the only errors reading one quiche log raises are IndexError, AttributeError or ValueError |
| Hystart.QuicheRecordSpec | hystart/hystartEval.py:24-72 | a row needs all three phases; its operator and iteration come from the file name; its stamps are the captures at the phase lines and nonzero; `time2exit` and `time2fin` are differences from the New connection stamp |
| Hystart.QuicheCaptureFails | hystart/hystartEval.py:41-60 | a phase line whose stamp or cwnd does not parse makes the whole file fail with AttributeError |
| Hystart.QuicheRowNeedsAllPhases | hystart/hystartEval.py:61-72 | without a fin line no row is added |
| Hystart.EvalQuicheFile | hystart/hystartEval.py:24-72 | the three loops over one file iterator compute the specified record |
| Hystart.QuicheRows | hystart/hystartEval.py:21-72 | at most one row per file, each with the time differences |
| Hystart.QuicheRowsFailureSticks | hystart/hystartEval.py:22-72 | once a file raises, later files do not change the outcome |
| Hystart.EvalQuiche | hystart/hystartEval.py:17-76 | `evalQuiche` collects the rows and sorts them by operator rank |
| Hystart.PicoquicResult | hystart/hystartEval.py:117-139 | `not found` iff no line matches either test; otherwise the first matching line fixes the type, its stamp is both `tsExit` and `time2exit`, and cwnd comes from the next line; errors are AttributeError or StopIteration |
| Hystart.PicoquicExitFound | hystart/hystartEval.py:117-139 | at the first exit line: an unreadable stamp raises AttributeError, no next line StopIteration, an unreadable cwnd AttributeError; otherwise the report has the line's type, its stamp as `tsExit` and `time2exit`, and the next line's cwnd |
| Hystart.TypeLabelsDiffer | hystart/hystartEval.py:119 | the delay and loss labels differ (with line 126) |
| Hystart.PicoquicDelayFirst | hystart/hystartEval.py:117-131 | the type is `picoquic hystart delay` iff the first exit line is a delay-test line |
| Hystart.EvalPicoquic | hystart/hystartEval.py:108-139 | the scan with `next()` computes the specified report |
| Hystart.ReportExit | hystart/hystartEval.py:120-124 | reading the exit line's next line through the iterator gives the specified report (with lines 127-131) |
| Hystart.LinuxOperatorOfName | hystart/hystartEval.py:151 | `dmesg_{op}.dmesg_log` gives operator op |
| Hystart.LinuxFrom | hystart/hystartEval.py:159-172 | the only errors the line loop raises are AttributeError, StopIteration or AssertionError |
| Hystart.LinuxFromSpec | hystart/hystartEval.py:159-172 | no HYSTART_LOSS line is passed without failing; each row has the file's operator and `time2exit = tsExit - tsStart`, from a HYSTART_DELAY line whose next line gives `tsStart` |
| Hystart.RowPerDelayLine | hystart/hystartEval.py:159-170 | when no two HYSTART_DELAY lines are adjacent, there is one row per such line |
| Hystart.PrefixedStep | hystart/hystartEval.py:159-172 | one loop step appends its row and continues after the consumed next line |
| Hystart.EvalLinuxFile | hystart/hystartEval.py:151-172 | the loop with `next()` computes the specified rows |
| Hystart.LinuxRows | hystart/hystartEval.py:148-172 | every collected row has `time2exit = tsExit - tsStart` |
| Hystart.LinuxRowsFailureSticks | hystart/hystartEval.py:149-172 | once a file raises, later files do not change the outcome |
| Hystart.EvalLinuxHystart | hystart/hystartEval.py:144-182 | `evalLinuxHystart` collects the rows and sorts them by operator rank |

## Left out

- SSH, SFTP, `subprocess` launches, sleeps, the `waitForQlogFile` polling and the
  `multiprocessing` server/client pair are not modelled: they are remote I/O,
  external processes and wall-clock timing. Directory listings and file
  contents enter the model as parameters.
- Shell command texts of `setNetem`, `run_quic_client`/`run_quic_server` and the
  picoquic server command are not modelled. The only exception is the
  `PREVIOUS_RTT`/`PREVIOUS_CWND_BYTES` values in the server environment.
- Plotting, logging and CSV writing are not modelled; they are pandas,
  seaborn, matplotlib and logging wrappers. The same applies to `fairness/fairnessTcpQuic.py`
  and `varyingObjectsize_chrome-h2-h3/`, which are orchestration and plotting only.
- `glob` ordering is not modelled: the files are given as a sequence in
  whatever order the listing produced.
- Floating point: timestamps, durations and JSON numbers are `real`. The
  value of the heatmap's `Normalized Goodput` quotient is not modelled; only
  whether `float(goodput) / datarate` raises is. The `/1e6` of `vostd_eval` is not modelled, and neither is
  the final `sort_values(by='Type')` there.
- JSON decoding, `dateutil` parsing and the capture groups of regular
  expressions are parameters. A failed `dateutil` parse counts as a failed
  capture (AttributeError).
- Strings.IsSpace: Python's `str.split()`/`strip()` and `\s` also treat
  Unicode spaces as white space; the model uses ASCII white space plus
  `\x1c`-`\x1f`.
- Strings.IsDigit: Python's `int()` and `\d` also accept Unicode decimal
  digits; the model accepts `0`-`9` only.
- Objects with a repeated member name: lookups take the last value, as
  `json.loads` does, but `for key in d` and the field loops visit every
  occurrence, where the decoded dict holds the name once, at its first
  position, with the last value.
- A metrics event whose `event[3]` (or a quiche record whose `data`) is a
  non-empty list: Python iterates it and indexes the list by its own items,
  which succeeds for in-range integers; the model raises TypeError for any
  non-empty list, as Python does for a non-empty string.
- CrTracePhases.PhaseValues: `pd.DataFrame.from_dict(orient='index')` on a
  dict whose values are lists or dicts spreads them over several cells or
  rows; the model keeps each member value as one cell.
- Hystart.StreamFinLine: lines are assumed to carry a newline only at their end, as
  lines read from a file do, so `.` in the STREAM pattern matches any
  character between the two parts.
- VostdRun.PathJoin: the remote and destination directories are assumed to
  have no trailing `/`, in which case `os.path.join` adds one separator.
- VostdRun.RunTrials: uses `NUM_ITR`, as `main` does; the unused
  `--iterations` argument is not modelled.
- VostdRun.ConvertSizeToBytes: does not state for every input that the result is a
  multiple of 1024; `ConvertOfUnit` states the exact value for well-formed sizes.
- Hystart.ByOperator: a one-column `sort_values` uses pandas' default quicksort,
  which is not stable, so only the order of keys and the permutation are
  stated, not the order of ties. The two-column sort of `runEval` is stable,
  and Heatmap.EvalResultKeepsTies states that.
- The call at hystart/hystartEval.py:222 passes no argument to `evalPicoquic`.
  The function is modelled, not that call.
- VostdRun.RunTrials: the calls to `get_who`, `delete_qlog` and `get_qlog` inside the
  trial loop are modelled as separate operations, not as steps of the loop.
- Heatmap.EnabledRows: the pivot and heatmap of `runPlot` are plotting and are not modelled.
