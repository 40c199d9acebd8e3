# collectd plugins for job monitoring: a verified model

This project models the core of a set of collectd plugins that collect
node-level metrics and write them to InfluxDB:

- the InfluxDB writer (`python/influx_write.py`). It caches collectd value
  lists per plugin and plugin instance, sums per-core values of the same
  second, builds InfluxDB points (one per series and second, with every
  field of that second), turns counters into rates, and sends batches with
  retry-by-retention.
- the Lustre collector (`python/lustre_bw.py`). It finds the Lustre file
  systems, parses their `stats` and `extents_stats` files, and dispatches the
  change of each counter since the last read divided by the interval.
- the InfiniBand collector (`python/ib_bw.py`). It sums the receive and
  transmit counters of all ports, watches for saturated 32-bit counters and
  dispatches the bandwidth since the last read.
- the LIKWID plugin (`c/likwid.c`). It configures hardware-counter metric
  groups, chooses one hardware thread per socket for per-socket metrics,
  numbers the physical cores, measures the groups in turn, and submits
  per-thread, per-core and summed FLOPS values. It also covers the
  `cdtime_t` conversions the plugin uses.

Modules follow the source:

| module | file | models |
|---|---|---|
| `Util`, `OrderedDict` | util.dfy | Python and C string helpers, insertion-ordered dicts |
| `Floats` | floats.dfy | double addition and division with NaN and infinities |
| `CdTime` | cdtime.dfy | the `cdtime_t` macros of `c/likwid.c` |
| `RecheckCounter` | recheck.dfy | the `num_reads`/`recheck_limit` counter of both Python collectors |
| `InfiniBand` | infiniband.dfy | `ib_bw.py`, with the class `IbPlugin` holding its globals |
| `InfluxBatch` | influx_batch.dfy | `_collect` and the batch it fills |
| `InfluxPrepare` | influx_prepare.dfy | `_prepare_metrics` |
| `InfluxEngine` | influx_engine.dfy | `_getInteger`, the PerCore option and the class `Writer` (write, _send, flush) |
| `Lustre` | lustre.dfy | `lustre_bw.py`, with the class `LustrePlugin` |
| `LikwidMetrics`, `LikwidConfig`, `LikwidTopology`, `LikwidSetup`, `LikwidRead`, `LikwidPlugin` | likwid_*.dfy | `c/likwid.c`, with the class `Plugin` holding its static variables |

Each piece of code is modelled in the form it has in the source.
- The loops that change state are methods with loop invariants, proved
  against a specification function.
- The global variables of each plugin are the fields of a class, and its
  callbacks are methods with `modifies` clauses.
- The C arrays the topology loops fill are Dafny arrays.
- The parsers and the point builder are functions, and lemmas state their
  properties.

Everything outside the process is a parameter:
- file contents and the output of `find`, `ls` and `likwid-topology`;
- whether a send succeeded;
- perfmon's answers;
- the clock;
- `float()`, `strtod` and collectd's data sets.

Where the code and the description of the writer disagree, the model
follows the code:
- `_prepare_metrics` moves the rate baselines on even when the send then
  fails, so a retried send does not rebuild the same points
  (`InfluxPrepare.RetryLosesRate`).
- A counter reading from the same second as its baseline still becomes the
  new baseline (`InfluxPrepare.RateRule`).
- A point closed by a value list from a new second is emitted after the
  tags are rebuilt for that list, so it carries the new list's host
  (`InfluxPrepare.TwoGaugesNewSecond`).
- A send is triggered only when a value list from a new second arrives
  while `batch_count >= batch_size` (`InfluxEngine.WriteSendsWhen`).
- The cache admits a value list while `batch_count <= cache_size`, so it
  holds up to `cache_size + 1` entries (`InfluxEngine.WriteKeepsWithinCache`).

A plugin in `per_core_avg_plugins` has its value divided by
`threads_per_core` before the rate step, while `batch_derive` keeps the
undivided value list as the baseline. A rate of such a plugin therefore
subtracts a raw reading from an averaged one, and an unchanged counter
reports a negative rate when `threads_per_core` is 2 or more
(`InfluxPrepare.AvgRateRule`, `InfluxPrepare.AvgRateOfUnchangedCounter`).
Whether an averaged plugin reports counters depends on the collectd
configuration, so this is recorded as a property of the code, not as a
finding.

## Model

| member | source | states |
|---|---|---|
| CdTime.U64 | c/likwid.c:36 | a conversion to `cdtime_t` lands below 2^64 and keeps every value already in range |
| CdTime.BitOrShifted | c/likwid.c:26-27 | or-ing a value below 2^k into a multiple of 2^k is adding it |
| CdTime.TimeRoundTrip | c/likwid.c:21-33 | whole seconds below 2^34 survive `TIME_T_TO_CDTIME_T` followed by `CDTIME_T_TO_TIME_T` |
| CdTime.ShiftWraps | c/likwid.c:21 | the 30-bit shift on `uint64_t` keeps the seconds modulo 2^34 |
| CdTime.FractionFits | c/likwid.c:27 | the rounded nanosecond part of `NS_TO_CDTIME_T` stays below 2^30 |
| CdTime.NsOrIsPlus | c/likwid.c:24-28 | `NS_TO_CDTIME_T` is the seconds (mod 2^34) in the upper bits plus the rounded fraction in the lower 30 bits |
| CdTime.WholeSecondsAgree | c/likwid.c:21-30 | a whole number of seconds given in nanoseconds converts exactly as those seconds do |
| Floats.Add | c/likwid.c:662 | double addition: exact on finite values; NaN exactly when an operand is NaN or infinities of opposite sign meet |
| Floats.DivPos | python/influx_write.py:301 | division by a positive divisor keeps the class of the value and inverts the multiplication on finite values |
| Floats.AddCommutes | python/influx_write.py:180 | the order of two additions does not matter, NaN and infinities included |
| Util.Strip | python/influx_write.py:383 | `str.strip()` on ASCII whitespace, as `int()` applies it: the text with its leading and trailing whitespace removed, that is a slice of it with only whitespace before and after, which neither starts nor ends with whitespace |
| Util.ParseInt | python/influx_write.py:383 | `int()` of a plain decimal numeral of ASCII digits is its value |
| Util.RFind | python/lustre_bw.py:97-98 | `rfind` gives the last position of the character, or -1 exactly when it is absent |
| Util.Slice | python/lustre_bw.py:111 | a Python slice is the Dafny subsequence for ordered bounds and empty otherwise |
| Util.SplitOn | python/lustre_bw.py:65 | `split` on a separator gives at least one part |
| Util.JoinSplitOn | python/lustre_bw.py:65 | joining the parts of `split` gives the text back, and no part holds the separator |
| Util.NonEmpty | python/ib_bw.py:108 | `filter(None, ...)` keeps exactly the non-empty strings; one string is kept when it is non-empty and dropped otherwise |
| Util.NonEmptyConcat | python/ib_bw.py:108 | `filter(None, ...)` works element by element: filtering a + b gives the filtered a followed by the filtered b, so the order and the repetitions of the kept strings are those of the input |
| Util.RunLength | python/lustre_bw.py:198 | the first word of `split()` runs up to the first whitespace |
| Util.WordsAreWords | python/lustre_bw.py:198 | every word of `split()` is non-empty and holds no whitespace, and the words joined give the text with its whitespace removed |
| Util.WordsOfBlank | python/lustre_bw.py:198 | `split()` gives no word exactly when the text is all whitespace |
| Util.WordsLeadingRun | python/lustre_bw.py:198 | `split()` takes the maximal runs in order: after leading whitespace, a run that ends at whitespace or at the end is the first word, followed by the words of the rest |
| Util.StrncmpEqualIsTake | c/likwid.c:174 | `strncmp(a, b, n) == 0` exactly when the first n characters agree |
| Util.StrncmpPrefix | c/likwid.c:289-290 | `strncmp(s, p, strlen(p)) == 0` exactly when p is a prefix of s |
| Util.SplitOnCount | c/likwid.c:805-812 | splitting gives one more part than there are separators |
| Util.TokensFit | c/likwid.c:834-844 | `strtok` never yields more tokens than the separators plus one |
| OrderedDict.Find | python/influx_write.py:170-171 | a key is found at a position holding it, and not found exactly when no entry holds it |
| OrderedDict.Put | python/influx_write.py:189-192 | `d[k] = v` keeps keys unique and the key order, and appends a missing key |
| OrderedDict.GetPut | python/influx_write.py:189-192 | after `d[k] = v`, k maps to v and every other key keeps its value |
| RecheckCounter.NextCount | python/ib_bw.py:207-212 | `num_reads` goes back to 0 exactly when it reaches `recheck_limit`, else it grows by one |
| RecheckCounter.CountAfterBelow | python/ib_bw.py:207-212 | before the first recheck `num_reads` counts the reads |
| RecheckCounter.CountAfterPeriodic | python/ib_bw.py:207-212 | with a positive limit L, `num_reads` repeats every L reads |
| RecheckCounter.CountAfterRange | python/ib_bw.py:207-212 | with a positive limit L, `num_reads` stays in [0, L) |
| RecheckCounter.RecheckWhenZero | python/ib_bw.py:207-212 | a read rechecks exactly when it leaves `num_reads` at 0 |
| RecheckCounter.RecheckPeriod | python/ib_bw.py:207-212 | after q·L + r reads `num_reads` is r, so rechecks come on every L-th read and no other |
| RecheckCounter.NoRecheck | python/ib_bw.py:35 | with the default limit 0 no read ever rechecks |
| InfiniBand.AccumulateFromIsSums | python/ib_bw.py:227-254 | the port loop adds 4× every readable unsaturated receive counter and 4× every readable transmit counter, and overflows exactly when a readable port saturates |
| InfiniBand.AccumulateIsSums | python/ib_bw.py:218-254 | the totals of a read are those sums from zero |
| InfiniBand.Readable | python/ib_bw.py:229-231 | the ports kept are listed ports whose receive counter can be read |
| InfiniBand.SkippedPortsIgnored | python/ib_bw.py:229-231 | a port whose receive counter cannot be read adds to neither total nor to the overflow flag |
| InfiniBand.AccumulateConcat | python/ib_bw.py:227 | the loop over a + b is the loop over a, then over b |
| InfiniBand.AccumulateTwice | python/ib_bw.py:227-254 | listing every port twice doubles both totals |
| InfiniBand.RediscoverAsWritten | python/ib_bw.py:114-137 | as written, discovery appends the ports it finds to the list it already has |
| InfiniBand.Rediscover | python/ib_bw.py:114-137 | corrected, the list holds exactly the ports the latest discovery found |
| InfiniBand.RediscoverIsStable | python/ib_bw.py:210-211 | corrected, a recheck of an unchanged system leaves every later total unchanged |
| InfiniBand.RediscoverAsWrittenDoubles | python/ib_bw.py:210-211 | as written, a recheck of an unchanged system doubles both totals |
| InfiniBand.InitializeSpec | python/ib_bw.py:177-199 | the plugin is enabled exactly when discovery succeeds, then with the ports found; counters and baselines are untouched |
| InfiniBand.Sample | python/ib_bw.py:214-279 | disabled: nothing; overflow: baselines reset to 0 and nothing dispatched; otherwise the bandwidth `(Δrecv + Δsend) / Δt` is dispatched exactly when neither total fell and time moved, and ZeroDivisionError is raised exactly when neither total fell and time did not move |
| InfiniBand.ReadBookkeeping | python/ib_bw.py:205-279 | a read moves `num_reads` on as NextCount says, rediscovers exactly when it reaches the limit, and updates `time_prev` unless it raised |
| InfiniBand.FirstReadSilent | python/ib_bw.py:40-42 | with the baselines at `sys.maxsize`, the first read dispatches nothing unless its receive total reaches `sys.maxsize` |
| InfiniBand.RecheckSpike | python/ib_bw.py:205-279 | one idle port and a recheck: as written 8 B/s is dispatched, corrected 0 |
| InfiniBand.IbPlugin.constructor | python/ib_bw.py:29-42 | the globals at load time |
| InfiniBand.IbPlugin.Initialize | python/ib_bw.py:177-199 | `ib_plugin_initialize` changes the state as InitializeSpec says |
| InfiniBand.IbPlugin.NotifyCheck | python/ib_bw.py:304-308 | corrected (Findings row 2): a "check" notification replaces the port list by the ports found and resets `num_reads`; the code appends the ports to the list instead (InfiniBand.RediscoverAsWritten) |
| InfiniBand.IbPlugin.Read | python/ib_bw.py:205-279 | corrected (Findings row 2): `ib_plugin_read` returns the dispatched bandwidth and the new state of ReadSpec, with a recheck that replaces the port list where the code appends to it |
| InfluxBatch.TruncSeconds | python/influx_write.py:176 | `int()` of a time truncates toward zero |
| InfluxBatch.LastMatch | python/influx_write.py:177-178 | the reversed scan finds the last entry of the same type, type instance and second, and none exists when it finds nothing |
| InfluxBatch.MergeValues | python/influx_write.py:179-180 | the stored values gain the new ones element-wise; stored values without a partner are kept |
| InfluxBatch.CollectFrame | python/influx_write.py:149-194 | `_collect` changes at most the bucket of the value list's plugin and tag; every other bucket and the plugin order stay |
| InfluxBatch.CollectAppends | python/influx_write.py:152-194 | outside the per-core path a value list is appended to its bucket, which is created when missing; without a plugin nothing changes |
| InfluxBatch.CollectPerCore | python/influx_write.py:161-186 | per core, a value list under its core's tag is summed into the last entry of the same second and type, or else appended |
| InfluxBatch.MergeCommutes | python/influx_write.py:179-180 | two per-core values of the same length sum to the same result in either order of arrival |
| InfluxBatch.CollectCounts | python/influx_write.py:170-194 | the batch grows by one entry exactly when `_collect` returns True |
| InfluxPrepare.PointTags | python/influx_write.py:258-267 | a point is tagged with the host, and with the plugin instance under `cpu`, `gpu` or the measurement name when there is one |
| InfluxPrepare.ValueAction | python/influx_write.py:280-335 | NaN and +inf are skipped, and without StoreRates an emitted value is never one of them; the per-core average is stated by the Avg lemmas below |
| InfluxPrepare.BucketStepInv | python/influx_write.py:247-372 | one bucket keeps every earlier point and baseline, and adds good points of its measurement, no two neighbours of the same second |
| InfluxPrepare.PreparedPointsAreGood | python/influx_write.py:241-374 | every point has a field and a hostname tag plus at most the tag of its measurement; without StoreRates no field is NaN or +inf; no baseline is lost |
| InfluxPrepare.SingleValueStep | python/influx_write.py:252-362 | a single value is decided by ValueAction and then its value list becomes the baseline |
| InfluxPrepare.RateRule | python/influx_write.py:304-335 | a counter without baseline gives no field; with an older baseline it gives `(v - prev) / Δs`; with one from the same second or later no field; in every case it becomes the baseline |
| InfluxPrepare.RetryLosesRate | python/influx_write.py:317-362 | a counter that yields a rate point yields no point when the same batch is prepared again after a failed send |
| InfluxPrepare.DroppedValuesAddNothing | python/influx_write.py:280-284 | a value list of NaN and +inf only sets no field and no baseline |
| InfluxPrepare.FieldNamesDistinct | python/influx_write.py:290-295 | the fields of a multi-value list get distinct names wherever the data set names them distinctly |
| InfluxPrepare.GaugeStep | python/influx_write.py:252-358 | a single gauge value adds its value under its metric name at its second, after the tags are rebuilt from its host, and sets no baseline |
| InfluxPrepare.GaugeFieldsKeys | python/influx_write.py:340-355 | the fields gathered in one second are exactly the metric names of the lists of that second |
| InfluxPrepare.GaugeFieldsLastWins | python/influx_write.py:340-342 | a repeated field name holds the value of the last list that has it |
| InfluxPrepare.SameSecondOnePoint | python/influx_write.py:247-372 | gauges of one series read in the same second give exactly one point at that second, holding every field of that second, and change no baseline |
| InfluxPrepare.TwoGaugesSameSecond | python/influx_write.py:340-372 | two gauges of one second share one point with both fields, and on an equal name the second value overwrites the first |
| InfluxPrepare.TwoGaugesNewSecond | python/influx_write.py:340-372 | two gauges of different seconds give two points, each at its own second with its own field; both carry the tags of the second list, because the first point is emitted after the tags are rebuilt |
| InfluxPrepare.AvgGaugeStep | python/influx_write.py:296-301 | a single value of a plugin in `per_core_avg_plugins` that is not a rate is reported divided by `threads_per_core`, under its metric name at its second, and sets no baseline |
| InfluxPrepare.AvgWithoutThreadsRaises | python/influx_write.py:296-301 | with `threads_per_core` 0, such a value raises ZeroDivisionError: the walk stops with no point added and no baseline moved |
| InfluxPrepare.AvgRateRule | python/influx_write.py:296-335 | an averaged counter gives `(v / threads_per_core - prev) / Δs`, where `prev` is the undivided baseline, and the undivided value list becomes the new baseline |
| InfluxPrepare.AvgRateOfUnchangedCounter | python/influx_write.py:296-362 | with `threads_per_core` 2 or more, an averaged counter whose positive reading did not change reports a negative rate |
| InfluxEngine.GetInteger | python/influx_write.py:379-389 | as written: `int()` where it succeeds, else the first digit at the start, else None |
| InfluxEngine.GetIntegerCorrected | python/influx_write.py:376-389 | corrected: `int()` where it succeeds, else the whole number at the start, else None |
| InfluxEngine.GetIntegerReadsOneDigit | python/influx_write.py:379-387 | as written, a number of two or more digits followed by text reads as its first digit |
| InfluxEngine.GetIntegerCorrectedReadsNumber | python/influx_write.py:376-387 | corrected, a number followed by text reads as that number |
| InfluxEngine.GetIntegerOfNumeral | python/influx_write.py:382-383 | a plain numeral reads as its value in both versions |
| InfluxEngine.Writer.constructor | python/influx_write.py:39-58 | the globals at load time |
| InfluxEngine.Writer.Collect | python/influx_write.py:149-194 | `_collect` updates the batch as InfluxBatch.Collect says and changes nothing else |
| InfluxEngine.Writer.FindGroup | python/influx_write.py:176-178 | the reversed scan returns LastMatch |
| InfluxEngine.Writer.AddInto | python/influx_write.py:179-180 | the element-wise sum is MergeValues, and IndexError is raised exactly when the new list is shorter |
| InfluxEngine.Writer.AddValue | python/influx_write.py:280-358 | one value changes the open point, the finished points and the counter id as its ValueAction says |
| InfluxEngine.Writer.PrepareValueList | python/influx_write.py:252-362 | one value list updates the walk and the baselines as ValueListStep says |
| InfluxEngine.Writer.PrepareBucket | python/influx_write.py:247-372 | one bucket updates the walk and the baselines as BucketStep says |
| InfluxEngine.Writer.PrepareMetrics | python/influx_write.py:241-374 | `_prepare_metrics` returns the points of Prepare and leaves its baselines in `batch_derive` |
| InfluxEngine.Writer.Send | python/influx_write.py:200-238 | `_send` changes the state as SendSpec says and offers the prepared points |
| InfluxEngine.Writer.Flush | python/influx_write.py:498-503 | `flush` is a send whatever the batch size |
| InfluxEngine.Writer.Write | python/influx_write.py:465-495 | `write` changes the state as WriteSpec says |
| InfluxEngine.Writer.ConfigurePerCore | python/influx_write.py:429-444 | the PerCore option fills the plugin lists as ConfigurePerCoreSpec says and touches no other state |
| InfluxEngine.WriteKeepsConsistent | python/influx_write.py:484-495 | `batch_count` always equals the number of cached value lists |
| InfluxEngine.WriteKeepsWithinCache | python/influx_write.py:493-495 | the cache never holds more than `cache_size + 1` value lists |
| InfluxEngine.WriteSendsWhen | python/influx_write.py:466-490 | `write` sends exactly when the client exists, a second was seen before, the new list is from another second and `batch_count >= batch_size` |
| InfluxEngine.WriteTracksTimestamp | python/influx_write.py:466-486 | with a client the list's second becomes the current one; without one nothing changes; no baseline is lost |
| InfluxEngine.SendOutcome | python/influx_write.py:200-238 | the cache is emptied when nothing was built or the points were delivered, and kept when delivery failed or preparing raised; the baselines move on in every case |
| InfluxEngine.UnreadableBatchSize | python/influx_write.py:418-420 | a `batch_size` that `_getInteger` as written reads as None makes every write at a new second raise before anything is sent or collected; the corrected reading gives None on the same text |
| InfluxEngine.PerCoreLoopStops | python/influx_write.py:434-444 | once an entry has raised, the later entries are not read |
| InfluxEngine.PerCoreLoopGrows | python/influx_write.py:433-444 | each entry appends its plugin name, and the averaged plugins stay among the per-core ones |
| InfluxEngine.PerCoreLoopRaises | python/influx_write.py:434-441 | the option raises exactly when an entry has no colon, and that entry is the last one read |
| Lustre.StatsLine | python/lustre_bw.py:197-206 | one `stats` line raises exactly when it is bad |
| Lustre.StatsLineStep | python/lustre_bw.py:198-206 | a good line sets its keys from the words at their positions and leaves every other key alone |
| Lustre.StatsLinesRaise | python/lustre_bw.py:195-208 | `_parseLustreStats` raises exactly when one of its lines is bad |
| Lustre.StatsLinesValues | python/lustre_bw.py:195-208 | the result holds exactly the keys whose line occurs, each with the number at its position in the last such line |
| Lustre.ExtentsLine | python/lustre_bw.py:214-236 | a row of 11 words adds its positive reads and writes columns under `read_`/`write_` keys, and nothing else is added |
| Lustre.ExtentsLinesSpec | python/lustre_bw.py:212-238 | every entry comes from a positive column of an 11-word row, and every such column has its entry |
| Lustre.PublishPrevious | python/lustre_bw.py:240-274 | publishing raises ZeroDivisionError exactly when no time passed and some metric did not fall; otherwise every previous value is overwritten |
| Lustre.PublishSent | python/lustre_bw.py:240-274 | publishing dispatches exactly the metrics that did not fall, once each, under `lustre_<fs>` with their change per second |
| Lustre.FsName | python/lustre_bw.py:97-111 | the name is the text between the last `/` and the last `-`, empty when the `-` comes first; a path without `-` raises |
| Lustre.AcceptedPaths | python/lustre_bw.py:93-102 | only non-empty paths holding a `/` are kept |
| Lustre.SetupEntriesSpec | python/lustre_bw.py:89-115 | the path loop raises exactly when an accepted path has no `-`; otherwise each accepted path adds one disabled file system with its name and no previous values |
| Lustre.SetPrevValues | python/lustre_bw.py:130-171 | seeding the previous values keeps every file system's path and name |
| Lustre.SeedExtentsAddsNothing | python/lustre_bw.py:154-167 | the one line `readline` returns, with or without its newline, adds nothing to the previous values unless it is a row of 11 words; "", "disabled" and the snapshot_time header are not |
| Lustre.HaveNewFSIff | python/lustre_bw.py:174-190 | `_haveNewFS` is true exactly when some listed path is not monitored |
| Lustre.ReadEntry | python/lustre_bw.py:333-369 | reading a file system changes only its previous values; a disabled one or one with an empty path is passed over |
| Lustre.ReadEntryPrevious | python/lustre_bw.py:338-369 | a read that does not raise leaves the previous values overwritten by the `stats` values and then the `extents_stats` values |
| Lustre.ReadEntries | python/lustre_bw.py:333-369 | the loop keeps every file system except for its previous values |
| Lustre.ReadBookkeeping | python/lustre_bw.py:307-372 | corrected (Findings row 3): a read moves `num_reads` on as NextCount says; a recheck that finds a new file system dispatches nothing; any other read keeps paths, names and flags and moves `time_prev` unless it raised |
| Lustre.NextCountAsWritten | python/lustre_bw.py:311-321 | as written, `num_reads` is either reset or one more |
| Lustre.RechecksStopAsWritten | python/lustre_bw.py:311-321 | as written, after a recheck finds a new file system `num_reads` only grows and no later read rechecks |
| Lustre.RecheckStuck | python/lustre_bw.py:311-321 | with limit 2, as written `num_reads` stays at 2 after a recheck finds a new file system; corrected it is back at 0 |
| Lustre.LustrePlugin.constructor | python/lustre_bw.py:44-58 | the globals at load time |
| Lustre.LustrePlugin.Setup | python/lustre_bw.py:89-126 | `_setupLustreFiles` changes the state as SetupSpec says |
| Lustre.LustrePlugin.ScanPaths | python/lustre_bw.py:90-115 | the path loop rebuilds fsInfo as SetupEntries says and touches nothing else |
| Lustre.LustrePlugin.SeedPrevious | python/lustre_bw.py:130-171 | `_setPrevValues` changes fsInfo, `enabled` and `time_prev` as SetPrevValues says |
| Lustre.LustrePlugin.SeedOne | python/lustre_bw.py:133-171 | one file system is seeded; `enabled` turns on when its stats file is readable |
| Lustre.LustrePlugin.Publish | python/lustre_bw.py:240-274 | `_publishLustreMetrics` dispatches and overwrites the previous values as PublishSpec says |
| Lustre.LustrePlugin.Read | python/lustre_bw.py:307-372 | corrected (Findings row 3): `lustre_plugin_read`, with the counter reset after every recheck, changes the state as ReadSpec says |
| Lustre.LustrePlugin.ReadAll | python/lustre_bw.py:333-369 | the file-system loop changes fsInfo and dispatches as ReadEntries says |
| Lustre.LustrePlugin.ReadOne | python/lustre_bw.py:334-369 | one file system is read as ReadEntry says |
| Lustre.LustrePlugin.NotifyCheck | python/lustre_bw.py:376-387 | a "check" notification sets the plugin up again only when there is a new file system, and resets `num_reads` |
| LikwidMetrics.IsMetricPerCpu | c/likwid.c:172-180 | a metric is per CPU exactly when no per-socket name agrees with it on six characters |
| LikwidMetrics.PerCpuByPrefix | c/likwid.c:172-180 | the same decision stated on six-character prefixes |
| LikwidMetrics.HasSocketData | c/likwid.c:491-498 | a thread has socket data exactly when it was chosen for its socket |
| LikwidMetrics.MeasurementName | c/likwid.c:481-487 | the measurement is `likwid_cpu` or `likwid_socket` |
| LikwidMetrics.MeasurementNameSeparates | c/likwid.c:481-487 | two metrics share a measurement exactly when both are per CPU or both per socket |
| LikwidMetrics.FlopsFactorByName | c/likwid.c:238-262 | only `flops*` names count, and only while normalizing; the normalized name gets 0 and stops normalization; `dp` doubles, `avx` quadruples, anything else is 1 |
| LikwidMetrics.CounterLimit | c/likwid.c:452-457 | the limit for width w is 2^(w+1) - 1, and 0 for an unknown width |
| LikwidMetrics.NoMatchKeepsDefault | c/likwid.c:281-293 | without a matching MaxValues entry the bound is the counter limit, or none |
| LikwidMetrics.LastMatchWins | c/likwid.c:288-293 | the last MaxValues entry whose name prefixes the metric sets the bound |
| LikwidMetrics.Admit | c/likwid.c:611-647 | a value is used exactly when its thread may report it, it is finite and not above the bound; it is multiplied by the FLOPS factor when normalizing positive values |
| LikwidMetrics.AccumulateSums | c/likwid.c:659-663 | for non-negative values a slot holds their sum, and stays empty only when none arrived |
| LikwidMetrics.Dispatch | c/likwid.c:530-556 | `_submit_value` drops exactly the sentinel -1 |
| LikwidConfig.AtoiReadsDecimal | c/likwid.c:789 | `atoi` reads back a decimal number with or without a minus sign |
| LikwidConfig.Trunc | c/likwid.c:792 | the double-to-integer conversion truncates toward zero |
| LikwidConfig.MtimeSplits | c/likwid.c:790-794 | a non-negative Mtime splits into seconds and fewer than 10^9 nanoseconds, losing less than a nanosecond |
| LikwidConfig.SlotCount | c/likwid.c:804-812 | the C code allocates one entry more than there are commas, never fewer than the tokens |
| LikwidConfig.CountSlots | c/likwid.c:805-812 | the counting loop returns SlotCount |
| LikwidConfig.UnfilledSlots | c/likwid.c:846-881 | as written, "a,,b" allocates three entries and fills two, and "" allocates one and fills none |
| LikwidConfig.PerSocketMetricsFilled | c/likwid.c:846-881 | corrected, PerSocketMetrics stores exactly the tokens, none empty and none holding a comma |
| LikwidConfig.GroupSlots | c/likwid.c:822-844 | there is one group per counted slot |
| LikwidConfig.GroupNamesInOrder | c/likwid.c:822-844 | every token names its own group in order; the other slots stay unnamed; no group has an id or metrics yet |
| LikwidConfig.NameGroups | c/likwid.c:804-844 | the loops of the Groups key build GroupSlots |
| LikwidConfig.Strchr | c/likwid.c:913 | `strchr` finds the first position of the character, and nothing exactly when it is absent |
| LikwidConfig.Entry | c/likwid.c:913-925 | a MaxValues entry is named by the text before the first colon |
| LikwidConfig.ParseMaxValues | c/likwid.c:911-933 | every token with a colon gives its entry; the first token without one stops the loop with an error |
| LikwidConfig.MaxValuesOk | c/likwid.c:911-919 | MaxValues succeeds exactly when every token has a colon |
| LikwidConfig.ReadMaxValues | c/likwid.c:907-933 | the tokenizing loop returns ParseMaxValues |
| LikwidConfig.ConfigStatus | c/likwid.c:777-940 | the status is -1 exactly for an unknown key, which changes nothing; 1 exactly for an empty MaxValues or an entry without a colon; else 0 |
| LikwidConfig.KeysIgnoreCase | c/likwid.c:784-935 | keys that differ only in case have the same effect |
| LikwidTopology.SocketThreadsAsWrittenRepeatsSocket | c/likwid.c:388-408 | as written, threads on sockets [1, 1, 0, 0] choose both threads of socket 1 |
| LikwidTopology.SocketThreads | c/likwid.c:388-408 | corrected, at most one thread per socket, each on the socket recorded for it |
| LikwidTopology.SocketThreadsDistinct | c/likwid.c:388-408 | the chosen threads are on distinct sockets |
| LikwidTopology.SocketThreadsComplete | c/likwid.c:388-408 | unless numSockets threads were chosen, every thread's socket has a chosen thread |
| LikwidTopology.SocketThreadsFirst | c/likwid.c:389-403 | each chosen thread is the first thread of its socket |
| LikwidTopology.SocketThreadsFull | c/likwid.c:403-406 | once numSockets threads are chosen, later threads change nothing |
| LikwidTopology.OnChosenSocket | c/likwid.c:391-397 | the inner search finds exactly the sockets already chosen |
| LikwidTopology.SelectSocketThreads | c/likwid.c:380-408 | the loop fills `socketThreadIndices` with SocketThreads |
| LikwidTopology.ConsiderThread | c/likwid.c:389-407 | one iteration extends the chosen prefix as SocketThreads does |
| LikwidTopology.Cores | c/likwid.c:432-449 | the physical cores, each once, are exactly the cores of the threads |
| LikwidTopology.CoreIndex | c/likwid.c:432-449 | a thread's index is below the number of cores |
| LikwidTopology.SameIndexSameCore | c/likwid.c:433-449 | two threads share an index exactly when they share a core |
| LikwidTopology.NewCoreGetsNextIndex | c/likwid.c:434-445 | indices are handed out 0, 1, 2, … in the order of each core's first thread |
| LikwidTopology.CoreIdsAsWritten | c/likwid.c:438-443 | as written, a core's id is stored only when a later thread shares it |
| LikwidTopology.CoreIdsAsWrittenMissesSingleThreadCore | c/likwid.c:438-443 | as written, with cores [5, 7, 7] the id of core 5 is never stored |
| LikwidTopology.MarkCore | c/likwid.c:438-443 | every later thread on thread i's core gets the current index, and no other entry changes |
| LikwidTopology.AssignCoreIndices | c/likwid.c:426-449 | corrected, every thread gets CoreIndex and `coreIds` lists the cores in index order |
| LikwidTopology.NumberThread | c/likwid.c:433-449 | one iteration numbers the core of a thread that is its core's first thread |
| LikwidSetup.SetupMetrics | c/likwid.c:231-294 | each metric keeps its name, per-CPU flag and bound; only `flops*` names other than the normalized one get a factor of 1, 2 or 4, only while normalizing; normalization never turns back on |
| LikwidSetup.AllFlopsCounted | c/likwid.c:237-262 | without a metric named like the normalized one, normalization stays on and every `flops*` metric is counted |
| LikwidSetup.SetupGroups | c/likwid.c:194-300 | an unnamed group gets id -1, a group perfmon refuses -2, every other group its event set and the metrics perfmon names for it |
| LikwidSetup.MaxValueLoop | c/likwid.c:281-293 | the bound loop returns MaxValueFor |
| LikwidSetup.SetupOne | c/likwid.c:232-293 | one metric is set up as SetupMetric says |
| LikwidSetup.SetupMetricsLoop | c/likwid.c:231-294 | the metric loop returns SetupMetrics |
| LikwidSetup.SetupGroupsLoop | c/likwid.c:194-300 | the group loop returns SetupGroups |
| LikwidSetup.PerCoreSlots | c/likwid.c:264-279 | every metric gets one slot per core, each holding the sentinel |
| LikwidRead.RouteOf | c/likwid.c:601-682 | an admitted value goes to its FLOPS slot while FLOPS are summed, to its core's slot under per-core summation, and is submitted for its thread otherwise |
| LikwidRead.Submitted | c/likwid.c:677-680 | values submitted directly are never the sentinel and carry the read's time |
| LikwidRead.FoldSlot | c/likwid.c:659-676 | a slot ends holding the values routed into it: the first replaces the sentinel, the others add |
| LikwidRead.FoldOut | c/likwid.c:677-680 | phase 1 submits exactly the values routed to collectd, in order |
| LikwidRead.AdmitSample | c/likwid.c:611-647 | the filter at the top of the loop body computes Admit: a thread's value is dropped when it may not report it, when it is not finite or when it is above the bound |
| LikwidRead.TakeSample | c/likwid.c:601-682 | the loop body handles one value as RouteOf says |
| LikwidRead.ReadThread | c/likwid.c:603-681 | the metric loop of one thread folds its samples |
| LikwidRead.ReadGroup | c/likwid.c:601-682 | the thread loop of one group folds its samples |
| LikwidRead.ReadGroups | c/likwid.c:567-683 | the group loop folds the samples of every group with an event set whose counters set up |
| LikwidRead.CoreOut | c/likwid.c:688-707 | per-core submissions of a core carry that core's id and the read's time, and never the sentinel |
| LikwidRead.SubmitCore | c/likwid.c:688-707 | the metric loop of a core submits CoreOut and clears that core's slots it passes |
| LikwidRead.SubmitGroupCores | c/likwid.c:687-708 | the core loop of a group submits GroupCoresOut and clears its slots |
| LikwidRead.SubmitPerCore | c/likwid.c:685-710 | phase 2 submits PerCoreOut and clears every slot it passes |
| LikwidRead.FlopsOut | c/likwid.c:712-728 | summed FLOPS go out under `likwid_cpu` and the normalized name, never as the sentinel |
| LikwidRead.SubmitFlops | c/likwid.c:712-728 | phase 3 submits FlopsOut and resets the slots it submits |
| LikwidRead.UnusedSlotsStayEmpty | c/likwid.c:655-676 | FLOPS slots phase 3 does not submit and per-core slots phase 2 passes over are never written |
| LikwidRead.ReadOut | c/likwid.c:559-731 | nothing one read submits is the sentinel, and all of it carries the read's time |
| LikwidRead.ReadAll | c/likwid.c:564-731 | the three phases submit ReadOut and leave every slot at the sentinel again |
| LikwidRead.PerCoreSlotSums | c/likwid.c:655-676 | a core's slot holds the admitted values of exactly the threads on that core, and stays empty for a group that was not measured |
| LikwidPlugin.ReadTime | c/likwid.c:564 | a read's timestamp is now plus one measurement time per group, on `uint64_t` |
| LikwidPlugin.NotifyByPrefix | c/likwid.c:755-769 | a notification for this plugin disables reading on "disable…" and enables it on "enable…"; everything else, "rstCtrs" included, keeps the flag |
| LikwidPlugin.Plugin.constructor | c/likwid.c:84-159 | the static variables before configuration |
| LikwidPlugin.Plugin.Configure | c/likwid.c:777-940 | `likwid_plugin_config` changes the settings and returns the status as ApplyConfig says |
| LikwidPlugin.Plugin.InitThreads | c/likwid.c:380-408 | corrected (Findings row 4): the monitored threads, and the per-socket threads chosen by comparing package ids where the code compares a thread index with a package id (LikwidTopology.SocketThreadsAsWrittenRepeatsSocket) |
| LikwidPlugin.Plugin.InitCores | c/likwid.c:410-450 | corrected (Findings row 5): per-core summation stays on only with SMT, and then each thread gets its core's index and `coreIds` lists every core, where the code stores only the ids of cores with a later thread (LikwidTopology.CoreIdsAsWritten) |
| LikwidPlugin.Plugin.Init | c/likwid.c:357-460 | corrected (Findings rows 4 and 5): `_init_likwid` sets the threads, the per-socket threads, the core tables and the counter limit, with the corrected socket selection and core ids |
| LikwidPlugin.Plugin.SetupEventSets | c/likwid.c:194-300 | the group loop changes the groups and the normalization flag as SetupGroups says |
| LikwidPlugin.Plugin.AllocateSlots | c/likwid.c:264-319 | per-core slots for every metric, and FLOPS slots exactly when more than one FLOPS metric was found, all at the sentinel |
| LikwidPlugin.Plugin.SetupAllGroups | c/likwid.c:183-323 | `_setupGroups` sets up groups and accumulators and leaves the plugin valid |
| LikwidPlugin.Plugin.Start | c/likwid.c:733-744 | corrected (Findings rows 4 and 5): `likwid_plugin_init` sets the measurement time, the threads, the per-socket threads, the core tables (threads on one core share a per-core slot, threads on different cores do not) and the counter limit, then the groups, the normalization flag and FLOPS summation as SetupGroups says; the configuration stays as it was and the plugin is left valid |
| LikwidPlugin.Plugin.Read | c/likwid.c:559-731 | a read submits nothing while disabled and ReadOut at its timestamp otherwise |
| LikwidPlugin.Plugin.Notify | c/likwid.c:755-769 | `likwid_plugin_notify` changes the disabled flag as NotifyEffect says |

## Left out

- Files, processes and the network are parameters:
  - the counter and stats files, and the output of `find`, `ls` and `likwid-topology`;
  - the InfluxDB client (a `delivered` flag);
  - collectd's `get_dataset` and the `dispatch` calls (dispatched values are returned).
- Logging, `perfquery` counter resets, `nanosleep` and the register calls are left out.
- perfmon and the LIKWID topology are parameters:
  - `perfmon_addEventSet`, `perfmon_getMetricName`, `perfmon_setupCounters` and `perfmon_getLastMetric`;
  - the hardware thread list, socket count, threads per core, cores per socket and counter width.
- `_setCounters` and the "rstCtrs" notification are left out. They only reprogram perfmon.
- `likwid_plugin_finalize`, `module_register` and the Python `__main__` blocks are left out.
- The `ib_bw` restart notification (severity 1, "start") is left out. It unregisters `ib_plugin_read` and runs `ib_plugin_initialize` again, which appends the ports found to the existing port list a second time; `IbPlugin.Initialize` models only the first initialization, on the empty list.
- `malloc` failures are not modelled. Every allocation is taken to succeed.
- `float()`, `strtod` and the double rounding of `*`, `/` and `+` are modelled as follows:
  - `float()` and `strtod` are parameters;
  - arithmetic uses exact reals (`Floats` keeps NaN and the infinities where the code tests for them).
- Plugin.Start requires that per-core summation has at least as many core slots as distinct cores, and no more than the hardware threads. The C code writes outside its arrays otherwise.
- Plugin.Start requires a counter width below 63. `1 << (w + 1)` on `uint64_t` is undefined beyond that.
- The accumulators are sequences, not arrays.
  - `LikwidPlugin.Plugin.Read` computes a read on copies.
  - It does not store them back, because every slot is at the sentinel again after a read (`LikwidRead.ReadAll`).
- Three uninitialized reads are left out:
  - the unfilled entries of `perSocketMetrics` and `maxValues` after an empty token or a failing MaxValues entry;
  - the uninitialized `coreIds` slots of the as-written topology;
  - the entries of `socketThreadIndices` that the selection loop never fills: `_hasSocketData` reads all `numSockets` of them, and the model reads only the chosen ones (LikwidMetrics.HasSocketData).
  - The model stores only filled entries. UnfilledSlots and CoreIdsAsWritten name where the C code leaves them.
- The sentinel -1.0 is compared as a real, so a measured value of exactly -1 is dropped by Dispatch as in the C code. The model does not track it separately.
- The separator passed to `strtok` as `&separator` is taken to be the string ",". The C code passes the address of a single character, with no terminator after it.
- `fsPath.len()`, which raises AttributeError in Python, is modelled as a raise of the path loop (`Lustre.FsName` returns None).
- Lustre.SeedPrevious leaves out the whole `extents_stats` part of `_setPrevValues`: the open with mode "w+", the `readline`, the write of "1" and the merge. Only one line is read, and the merge adds nothing unless that line is a row of 11 words (`Lustre.SeedExtentsAddsNothing`). That line is "" for a regular file, which "w+" truncates, and "disabled" or the snapshot_time header for the proc file. What "w+" and the write of "1" do to the file is not modelled.
- Python 2 dict iteration order is a parameter (`order`, a list of the keys). The Lustre lemmas hold for every order.
- The influx batch holds value lists as values. The aliasing between a value list in the batch and the baseline stored in `batch_derive` is not modelled.
- The connection settings of the influx writer (host, port, ssl, user, password, database) and `_connect` are left out. Only whether a client exists is kept.
- The parsing of `likwid-topology -O` by `_setHWThreadMapping` is left out. Its result is the `mappingOk` flag and the core mapping in the configuration.
- The influx writer's configuration values are strings. collectd hands an unquoted number to Python as a float, which `int()` reads without the string path (`int(200.0)` is 200); that case is not modelled.
- The methods `IbPlugin.NotifyCheck`, `IbPlugin.Read`, `LustrePlugin.Read`, `Plugin.InitThreads`, `Plugin.InitCores`, `Plugin.Init` and `Plugin.Start`, and the function `Lustre.ReadSpec` with its lemma `Lustre.ReadBookkeeping`, run the corrected halves of Findings rows 2, 3, 4 and 5. The code as written is modelled by InfiniBand.RediscoverAsWritten, Lustre.NextCountAsWritten, LikwidTopology.SocketThreadsAsWrittenRepeatsSocket and LikwidTopology.CoreIdsAsWritten, which these members do not call.
- Util.Strip, Util.ParseInt and Util.IsSpace model only ASCII: whitespace is the six ASCII whitespace characters, and a numeral is an optional sign and ASCII digits. Python 3's `int()` also reads underscores between digits ("1_000" is 1000, where the model reads None and `_getInteger` then 1), non-ASCII decimal digits and numerals padded with Unicode whitespace such as U+00A0; its `\d` also matches non-ASCII digits. These are not modelled. Python 2's `str.split()` in `lustre_bw.py` and C's `isspace` split on exactly the six ASCII characters.
- `_getLustreFileSystemPaths` is left out. Its result is the `paths` parameter.
- InfluxBatch.MergeValues keeps the stored values that the added list does not reach. In the code, IndexError is raised there, after the sums made so far; `Writer.AddInto` reports the raise.

## Findings

| source | as written | input that shows it | evidently intended | confidence | as-written member | corrected member |
|---|---|---|---|---|---|---|
| python/influx_write.py:379-387 | the fallback of `_getInteger` matches `\d`, one digit | `batch_size = "200x"` is read as 2 | the whole number at the start, 200 | not executed; medium | InfluxEngine.GetIntegerReadsOneDigit | InfluxEngine.GetIntegerCorrected |
| python/ib_bw.py:114-137 | a recheck appends the ports it finds to `ibPortList`, which is never cleared | one idle port and a recheck due: every port is listed twice and 8 B/s is dispatched | the port list replaced by the ports found | not executed; high | InfiniBand.RediscoverAsWrittenDoubles | InfiniBand.Rediscover |
| python/lustre_bw.py:315-321 | a recheck that finds a new file system returns before `num_reads = 0` | `recheck_limit` 2 and a new file system at read 2: `num_reads` stays at 2 and grows, and no later read rechecks | `num_reads` reset after every recheck | not executed; high | Lustre.RechecksStopAsWritten | RecheckCounter.NextCount |
| c/likwid.c:393 | the selection loop compares a chosen thread index with a package id | four threads on sockets [1, 1, 0, 0] and two sockets: both threads of socket 1 are chosen | compare the package id of the chosen thread | not executed; high | LikwidTopology.SocketThreadsAsWrittenRepeatsSocket | LikwidTopology.SocketThreads |
| c/likwid.c:438-443 | a core's id is stored only inside the loop over later threads on the same core | threads on cores [5, 7, 7]: the id of core 5 is never stored and its values are submitted under an uninitialized id | store the id when the core gets its index | not executed; medium | LikwidTopology.CoreIdsAsWrittenMissesSingleThreadCore | LikwidTopology.AssignCoreIndices |
| c/likwid.c:846-881 | `numSocketMetrics` counts commas, but `strtok` skips empty tokens | "a,,b" allocates three names and fills two; `_isMetricPerCPU` then reads an uninitialized entry | store exactly the tokens found | not executed; medium | LikwidConfig.UnfilledSlots | LikwidConfig.PerSocketMetricsFilled |
