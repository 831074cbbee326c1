# docker-activity, modelled in Dafny

docker-activity watches the containers of a Docker host. For each running
container it forwards an activity record to an exporter. A record holds the
PID counts, memory use, a CPU value and, with the `enrichment-powercap`
feature, an energy estimate from the host's RAPL counter.

This project models the core of that program:

- **The orchestrator**: the allow-list built from `--containers`, and the
  registry of watched names. It handles the startup listing and the Docker
  event stream. Within a run it spawns at most one live watcher per
  registry key; once a watcher has unregistered its key, a later start
  event for that key spawns a new one.
- **The container watcher**: the loop that re-attaches to a container's
  stats stream while the container is alive. It converts and enriches each
  sample up to the stream's first error and sends it, dropping it when the
  send fails. Unless the liveness check errors, it then tries to unregister
  the container, which succeeds only when the registry lock can be taken.
- **`Record::from`** and **`Record::with_energy`**.
- **The enrichment stack** and its one stage, the power-counter enricher.
  This includes how the stack is built from the parameters and the cargo
  feature.
- **The output format option** and the CSV formatter. Both cover the
  feature-gated module and its superseded single-file predecessor.

## How the model is built

- **Files.** Every source file maps to a module:

  | module | file |
  |---|---|
  | `Model` | `model.dfy` |
  | `PowerCap` | `powercap.dfy` |
  | `Enrichment` | `enrichment.dfy` |
  | `OutputFormat` | `format.dfy` |
  | `Csv` | `csv.dfy` |
  | `LegacyFormat` | `legacy_format.dfy` |
  | `Watcher` (orchestrator side) | `watcher.dfy` |
  | `ContainerWatch` (watcher side) | `container_watcher.dfy` |

  `Text` models the two pieces of Rust's standard library the core relies on:
  - `str::split` on a char, where the empty string gives one empty piece;
  - integer `Display`.

  `Config` holds the two options of `Params` that the core reads.
- **Classes for mutable state.** State the source mutates is held in
  classes:
  - `PowerCapEnricher.last`;
  - the stages of an `EnrichmentStack`;
  - the `Arc<Mutex<HashSet<String>>>` registry, `TaskRegistry`, a plain
    record of fields that the methods of `Orchestrator` and
    `ContainerWatcher` update;
  - the `Orchestrator`;
  - the `ContainerWatcher`.

  The methods that change this state are proved against pure step
  functions.
- **Docker calls are inputs.** These are:
  - the container listing;
  - the event stream;
  - the per-attach stats streams;
  - the liveness answer;
  - how each channel send ends;
  - each counter reading.
- **Spawning is recorded, not run.** A spawned watcher is recorded in a
  ghost history `spawned`. The registry's ghost set `watching` holds the
  names whose watcher is alive.
- **Integer subtraction.** `u64` subtraction is the release-build
  wrap-around, `Model.WrappingSub`. Lemmas show it is the plain difference
  whenever the counters do not run backwards.
- **Floating point.** Values are kept symbolic (`Model.F64`). The CSV
  formatter prints them through an uninterpreted `render` function.
- **Cargo features.** `formatter-json` and `enrichment-powercap` are the
  boolean parameters `jsonFeature` and `powercap`/`powercapFeature`.

## Behaviour of the code worth knowing (the model follows the code)

- **Startup listing.** The startup listing does not pass through the
  allow-list: every running container gets a watcher, whatever
  `--containers` says (`src/watcher.rs:207-209`; see
  `Watcher.StartupBypassesAllowList`).
- **Registry keys.** Keys are not normalised. The listing reports `/web`,
  while events name `web`. So one container can get two watchers
  (`Watcher.SlashedAndPlainNamesAreDistinctKeys`).
- **Liveness errors.** A liveness error leaves `run` through `?` before the
  registry is touched (`src/watcher.rs:64`). That name stays registered, and
  later start events for it are ignored
  (`ContainerWatch.ContainerWatcher.Run`).
- **Reconnects.** Nothing calls `reset()` on a reconnect. The energy of the
  first record after a reconnect spans the gap
  (`ContainerWatch.EnergySpansReconnect`).
- **CPU value.** `cpu_percent` is the bare ratio of the two deltas. There is
  no factor of 100 and no CPU-count factor (`src/model.rs:31`;
  `Model.CpuPercentIsRatio`).

## Model

| member | source | states |
|---|---|---|
| Text.Split | src/watcher.rs:126 | `str::split(',')` yields at least one piece and no piece holds the separator |
| Text.JoinSplit | src/watcher.rs:126 | joining the pieces of a split with the separator gives back the original string |
| Text.SplitJoin | src/watcher.rs:126 | splitting a join of separator-free pieces gives back exactly those pieces |
| Text.JoinSnoc | src/format/csv.rs:9-21 | appending one field to a comma-joined line appends `,` and the field |
| Text.NatToString | src/format/csv.rs:14-19 | integer `Display` of a `u64` is a non-empty string of decimal digits |
| Text.ParseNatToString | src/format/csv.rs:14-19 | the printed digits read back as the same number |
| Text.NatToStringInjective | src/format/csv.rs:14-19 | distinct numbers print differently |
| Text.NatToStringNoLeadingZero | src/format/csv.rs:14-19 | the decimal rendering starts with `0` exactly for zero: there are no leading zeros |
| Text.IntToString | src/format/csv.rs:13 | the `i64` timestamp prints as digits, with a leading `-` exactly when it is negative |
| Text.ParseIntToString | src/format/csv.rs:13 | the printed timestamp reads back as its value: the digits spell the number, or, after the `-`, its absolute value |
| Text.IntToStringNoLeadingZero | src/format/csv.rs:13 | the printed timestamp is canonical: its digits, after any `-`, start with `0` exactly for zero, so `05` and `-05` never appear |
| Model.WrappingSub | src/model.rs:26-29 | the release-build `u64` difference is the value that, added to the subtrahend modulo 2^64, gives the minuend |
| Model.WrappingSubOrdered | src/model.rs:26-29 | without underflow the wrapped difference is the plain difference |
| Model.TrimLeadingSlashes | src/model.rs:35 | `trim_start_matches('/')` returns a suffix, removes only slashes, and leaves no leading slash |
| Model.FromStats | src/model.rs:24-47 | `Record::from` leaves the energy unset; every other field is stated by `FromStatsFields` and the CPU value by `CpuPercentIsRatio` and `CpuPercentIgnoresCpuCount` |
| Model.FromStatsFields | src/model.rs:24-47 | `Record::from` copies the id, timestamp, pid and memory readings; the name loses exactly its leading slashes; a missing CPU count becomes 1; there is no energy yet |
| Model.CpuPercentIsRatio | src/model.rs:26-31 | with counters that do not run backwards, the CPU value is the CPU delta over the system delta, a missing system reading counting as 0 |
| Model.CpuPercentIgnoresCpuCount | src/model.rs:30-31 | the online CPU count has no effect on the CPU value |
| Model.WithEnergy | src/model.rs:51-56 | `with_energy` changes only the energy; `None` leaves the record as it is; `Some(t)` sets the energy to CPU value times `t` |
| PowerCap.Output | src/enrichment/powercap.rs:18-24 | the enriched record differs only in energy; it is unchanged unless there are both a stored and a new reading; with ordered readings the energy is CPU value times their difference |
| PowerCap.OutputOrdered | src/enrichment/powercap.rs:20-21 | with a counter that did not run backwards, the record gets CPU value times `now - last` as its energy and nothing else changes |
| PowerCap.PowerCapEnricher.From | src/enrichment/powercap.rs:11-15 | a new enricher has no baseline |
| PowerCap.PowerCapEnricher.Enrich | src/enrichment/powercap.rs:18-27 | the result is `Output` of the old baseline and the reading, and the reading (even `None`) becomes the new baseline |
| PowerCap.PowerCapEnricher.Reset | src/enrichment/powercap.rs:29-31 | `reset` drops the baseline |
| Enrichment.Apply | src/enrichment/mod.rs:19-22 | the stack's fold changes at most the energy field, and an empty stack is the identity |
| Enrichment.StageOutput | src/enrichment/mod.rs:9-12 | one stage's `enrich` changes at most the energy, and a defaulted stage or a power-counter stage without a baseline returns the record unchanged |
| Enrichment.ApplyOne | src/enrichment/mod.rs:20-22 | a one-stage stack's fold is that stage's `enrich` |
| Enrichment.ApplyConcat | src/enrichment/mod.rs:20-22 | folding over two stacks in turn equals folding over their concatenation |
| Enrichment.AfterEnrich | src/enrichment/mod.rs:20-22 | the stage states after an `enrich` keep the stack's size; `EnrichSetsBaselines` states what each stage then holds |
| Enrichment.AfterReset | src/enrichment/mod.rs:24-26 | the stage states after a `reset` keep the stack's size; `ResetThenEnrich` states that no stage then holds a baseline |
| Enrichment.NoBaselineIsIdentity | src/enrichment/mod.rs:20-22 | a stack in which no stage holds a reading hands every record through unchanged |
| Enrichment.ResetThenEnrich | src/enrichment/mod.rs:24-26 | after `reset`, whatever the stages held, the next `enrich` adds no energy |
| Enrichment.EnrichSetsBaselines | src/enrichment/mod.rs:20-22 | after `enrich` each power-counter stage holds the reading just taken, and every stage keeps its kind |
| Enrichment.EnrichmentStack.constructor | src/enrichment/mod.rs:17 | a stack of distinct stages, whose footprint is exactly its power-counter stages |
| Enrichment.EnrichmentStack.Enrich | src/enrichment/mod.rs:9-22 | running the stages in vector order returns the fold `Apply` over the old states, and moves every stage to its post-enrich state |
| Enrichment.EnrichmentStack.Reset | src/enrichment/mod.rs:14-26 | every stage is reset once; defaulted stages do nothing |
| Enrichment.CreatePowerCap | src/enrichment/mod.rs:37-49 | no reader when `--disable-powercap` is set; otherwise a reader exactly when `try_default` succeeds |
| Enrichment.BuilderOf | src/enrichment/mod.rs:51-56 | the builder holds a reader exactly when the feature is on, powercap is not disabled, and the reader could be created |
| Enrichment.Build | src/enrichment/mod.rs:60-73 | a fresh stack with one baseline-free power-counter stage when feature and reader are present, and no stage otherwise |
| OutputFormat.Default | src/format/mod.rs:15-27 | the default is JSON exactly when JSON is compiled in, and it is always a compiled variant |
| OutputFormat.FromStr | src/format/mod.rs:29-40 | a parsed variant is compiled in and its keyword is the input; a rejection carries the input |
| OutputFormat.FromStrExact | src/format/mod.rs:32-38 | exactly `csv` and, with the feature, `json` are accepted; there is no trimming and no case folding |
| OutputFormat.DefaultParses | src/format/mod.rs:15-38 | the default format's keyword parses back to the default |
| OutputFormat.Formatter | src/format/mod.rs:42-50 | each variant gets its own formatter |
| Csv.Format | src/format/csv.rs:6-41 | CSV formatting never fails |
| Csv.Fields | src/format/csv.rs:6-41 | the line holds ten fields with `enrichment-powercap` and nine without; `Layout` states their order and contents |
| Csv.NatIsCommaFree | src/format/csv.rs:14-19 | a printed unsigned field holds no comma |
| Csv.IntIsCommaFree | src/format/csv.rs:13 | the printed timestamp holds no comma |
| Csv.Layout | src/format/csv.rs:6-41 | for comma-free id, name and floats, the line splits into the fields in source order (10 with powercap, 9 without), absent options printed as 0 |
| Csv.AbsentPrintsAsZero | src/format/csv.rs:14-20 | an absent optional field prints exactly as a present 0 |
| Csv.EnergyIsLastColumn | src/format/csv.rs:6-41 | the powercap line is the plain line followed by `,` and the energy |
| LegacyFormat.Default | src/format.rs:10-14 | the old default is always JSON |
| LegacyFormat.FromStr | src/format.rs:16-26 | exactly `json` and `csv` parse, each to the variant of that keyword; a rejection carries the input |
| LegacyFormat.Formatter | src/format.rs:28-35 | CSV maps to the CSV formatter, and JSON to the JSON one |
| LegacyFormat.CsvLine | src/format.rs:43-59 | the old CSV formatting never fails |
| LegacyFormat.SameAsFeatureBuild | src/format.rs:10-35 | the old file parses, defaults and dispatches exactly as the current one built with `formatter-json` does |
| LegacyFormat.SameCsvAsFeatureBuild | src/format.rs:43-59 | the old CSV line is exactly the current one built with `enrichment-powercap` |
| LegacyFormat.CsvLayout | src/format.rs:43-59 | the old CSV line splits into ten fields with the energy last |
| Watcher.AllowList | src/watcher.rs:124-127 | without `--containers` the allow-list is empty; with it, its names are exactly the pieces of the comma split, and it is never empty |
| Watcher.AllowListOfJoined | src/watcher.rs:124-127 | comma-joined names without commas give exactly those names |
| Watcher.EmptyOptionAdmitsOnlyEmptyName | src/watcher.rs:124-127 | `--containers ""` admits only the empty name |
| Watcher.ContainerName | src/watcher.rs:94-101 | there is a name exactly when actor, attributes and the `name` key are all present, and the name is that attribute |
| Watcher.RunningNames | src/watcher.rs:198-201 | there are at most as many names as listed containers |
| Watcher.RunningNamesMembers | src/watcher.rs:198-201 | the names are exactly the first names of listed containers |
| Watcher.RunningNamesOne | src/watcher.rs:200 | one container gives just its first name, or nothing when it has none |
| Watcher.RunningNamesConcat | src/watcher.rs:198-201 | the names keep listing order: two runs of containers give their names one after the other (with `RunningNamesOne`, one name at most per container) |
| Watcher.StartStep | src/watcher.rs:148-170 | `handle_start_event` on values never returns `Err`, keeps the lock's state and only adds registered names; `StartStepSpawnsOnce` states exactly when it spawns |
| Watcher.EventStep | src/watcher.rs:172-185 | `handle_event` on values never returns `Err`, keeps the lock's state and only adds registered names; `EventStepEffect` states exactly when it changes anything |
| Watcher.StartupSteps | src/watcher.rs:207-209 | the startup loop never returns `Err`, keeps the lock's state and only adds registered names; it stops at the first panic |
| Watcher.EventSteps | src/watcher.rs:217-227 | the event loop never returns `Err` (a failed `handle_event` would only be logged), keeps the lock's state and only adds registered names |
| Watcher.RunSteps | src/watcher.rs:206-229 | `run` returns `Err` exactly when listing the running containers fails; it keeps the lock's state and only adds registered names |
| Watcher.StartStepSpawnsOnce | src/watcher.rs:148-170 | a start spawns one watcher and registers the name exactly when the name is unregistered and the lock sound; otherwise it changes nothing; it panics exactly on a poisoned lock |
| Watcher.EventStepEffect | src/watcher.rs:172-185 | an event changes state exactly when it is an admitted `start` for an unregistered name under a sound lock; an admitted `start` panics exactly when the lock is poisoned (a poisoned lock reads as "not running"); all other events are `Ok` no-ops |
| Watcher.StartStepKeepsConsistent | src/watcher.rs:148-170 | a start keeps every spawned name registered and the history duplicate-free, and only extends the state |
| Watcher.StartupKeepsConsistent | src/watcher.rs:207-209 | the startup loop keeps that invariant and only extends the state |
| Watcher.EventsKeepConsistent | src/watcher.rs:217-227 | the event loop keeps that invariant and only extends the state |
| Watcher.ExtendsTransitive | src/watcher.rs:206-229 | state extension composes across run phases |
| Watcher.GrowStep | src/watcher.rs:206-229 | after a start or an event, the names spawned since the run began are still unregistered at its start and are exactly the newly live ones |
| Watcher.RunKeepsConsistent | src/watcher.rs:206-229 | over a whole sequential run no name is spawned twice, and every spawned name stays registered |
| Watcher.StartupBypassesAllowList | src/watcher.rs:207-209 | with allow-list {"web"}, a running "/db" listed twice gets exactly one watcher |
| Watcher.SlashedAndPlainNamesAreDistinctKeys | src/watcher.rs:206-229 | a listed "/web" and a start event for "web" spawn two watchers |
| Watcher.RepeatedStartIsIgnored | src/watcher.rs:153-156 | a start event for an already watched name spawns nothing |
| Watcher.AllowListFiltersEvents | src/watcher.rs:178-180 | with allow-list {"web"}, a start of "db" is ignored and a start of "web" is spawned |
| Watcher.TaskRegistry.constructor | src/watcher.rs:128 | the registry starts empty, sound and with no live watcher |
| Watcher.Orchestrator.TryFrom | src/watcher.rs:119-130 | the orchestrator holds the allow-list of `--containers`, the enrichment builder of the parameters, and an empty registry |
| Watcher.Orchestrator.IsRunning | src/watcher.rs:134-139 | the answer is `Running` of the registry: registered and the lock sound; a poisoned lock reads as not running |
| Watcher.Orchestrator.RegisterTask | src/watcher.rs:141-146 | on a sound lock the name is added; on a poisoned one it panics and changes nothing |
| Watcher.Orchestrator.HandleStartEvent | src/watcher.rs:148-170 | the outcome is `StartStep` of the old state; a watcher is spawned only for a name with no live watcher, and it becomes live |
| Watcher.Orchestrator.HandleEvent | src/watcher.rs:172-185 | the outcome is `EventStep` of the allow-list and the old state; a watcher is spawned only for a name that was unregistered, and that name becomes live |
| Watcher.Orchestrator.Run | src/watcher.rs:206-229 | the run's outcome and final state are `RunSteps` of the old state, so `RunKeepsConsistent` applies to it; the history only grows; every watcher it spawns is live afterwards, and none was spawned for a name registered when it began |
| ContainerWatch.TakeUntilError | src/watcher.rs:73 | `while let Some(Ok(_))` takes the samples of a prefix of received items and stops at the first error |
| ContainerWatch.Taken | src/watcher.rs:64-81 | a single attach contributes exactly its samples up to its stream's first error; `TakenStep` states how attaches follow each other |
| ContainerWatch.StatesAfter | src/watcher.rs:73-79 | enriching any run of samples, across attaches and with no reset, keeps the stack's size; `ForwardStep` states each step |
| ContainerWatch.Forwarded | src/watcher.rs:73-79 | at most one record reaches the channel per sample; `ForwardedInOrder` states which records and in what order |
| ContainerWatch.TakeStep | src/watcher.rs:73 | loop bookkeeping, by unfolding `TakeUntilError`: a received item contributes its sample before the rest of the stream's |
| ContainerWatch.TakenStep | src/watcher.rs:64-81 | loop bookkeeping, by unfolding `Taken`: each attach contributes its samples after those of the earlier attaches |
| ContainerWatch.ForwardStep | src/watcher.rs:73-79 | loop bookkeeping, by unfolding `StatesAfter` and `Forwarded`: one more sample advances the stage states by one enrich, and appends its enriched record exactly when its send succeeded |
| ContainerWatch.TakeMore | src/watcher.rs:73 | loop bookkeeping for `ForwardStream`: the samples still to come move past one received item |
| ContainerWatch.ForwardMore | src/watcher.rs:74-78 | loop bookkeeping for `ForwardStream`: converting, enriching and sending one sample keeps the loop's records and stage states on their specification |
| ContainerWatch.Delivered | src/watcher.rs:76-78 | there are at most as many delivered samples as samples |
| ContainerWatch.DeliveredMembers | src/watcher.rs:76-78 | the delivered samples are exactly the samples whose send succeeded |
| ContainerWatch.DeliveredOne | src/watcher.rs:76-78 | a single sample is delivered exactly when its send succeeded |
| ContainerWatch.DeliveredConcat | src/watcher.rs:73-79 | delivery keeps arrival order: the delivered samples of two runs, one after the other, are theirs one after the other |
| ContainerWatch.ForwardedInOrder | src/watcher.rs:73-79 | forwarded records come in arrival order, one per delivered sample, each `Record::from` of that sample up to its energy |
| ContainerWatch.EnergySpansReconnect | src/watcher.rs:64-81 | readings 1000 and 1500 taken in two attaches give the second record the energy of CPU value times 500 |
| ContainerWatch.TakenOfTwoAttaches | src/watcher.rs:64-81 | two attaches that each deliver one sample contribute those two samples in order |
| ContainerWatch.ForwardedFirstReading | src/watcher.rs:73-79 | on a fresh power-counter stage the first sent record gets no energy, and its reading becomes the baseline |
| ContainerWatch.ForwardedTwoReadings | src/watcher.rs:73-79 | on a fresh power-counter stage, two sent samples with readings that do not run backwards give a plain first record and a second record with CPU value times the reading difference |
| ContainerWatch.ContainerWatcher.constructor | src/watcher.rs:30-34 | the watcher holds its name and enrichment stack |
| ContainerWatch.ContainerWatcher.ForwardStream | src/watcher.rs:65-80 | one attach forwards exactly the specified records of its samples up to the first error, and advances the stage states over them |
| ContainerWatch.ContainerWatcher.Run | src/watcher.rs:58-91 | records over all attaches are the specified ones, with nothing reset between attaches; a liveness error is returned with the name still registered; otherwise the name is removed exactly when `try_lock` succeeds; nothing else in the registry changes, and the watcher is no longer live |

## Left out

- I/O and the Docker daemon. The container listings, the event stream, the
  stats streams, the liveness answers and the counter readings are inputs.
  `create_docker` and the Docker connection in `try_from` are not modelled.
- Concurrency. `tokio::spawn`, the `mpsc` channel and the mutex are not
  modelled:
  - a spawned watcher is a history entry;
  - a send's outcome is a flag on its sample;
  - the lock is a `poisoned` flag, plus `lockBusy` for `try_lock`.
- Watcher.Orchestrator.Run: the watchers it spawns do not run interleaved
  with it. A watcher's deregistration is `ContainerWatch.ContainerWatcher.Run`
  applied to the same registry.
- Run state that spans several calls. A run of the watcher or the orchestrator
  that never ends is not modelled. Each is modelled as the finite prefix a
  script describes.
- ContainerWatch.ContainerWatcher.Run: the liveness check's name filter
  (both the raw and the slash-trimmed name, `status=running`) is not
  modelled. The check's answer is an input: every attach is preceded by a
  `true`, and the final verdict is either `false` or an error.
- Floating point. `f64` values are the symbolic terms of `Model.F64`, so
  NaN and infinity for a zero system delta are not modelled. Their
  printing is the uninterpreted `render`.
- Model.WrappingSub: the debug-build overflow panic is not modelled. The
  model is the release build, where overflow checks are off.
- Model.FromStats: `read.timestamp()` (RFC 3339 time to seconds) is not
  modelled. `Stats.read` already holds the seconds.
- Enrichment.EnrichmentStack.Enrich: it takes one counter reading per call,
  shared by all power-counter stages. `build` creates at most one such
  stage, so this is exact for every stack the program builds.
- Csv.Layout: the statement needs ids, names and printed floats without
  commas. The source escapes nothing, so other lines do not split back
  into their fields.
- OutputFormat.FromStr and LegacyFormat.FromStr: the error is the rejected
  input itself, not the `unknown format {:?}` text. Debug quoting is not
  modelled.
- Not part of this model:
  - the JSON formatter (serde serialisation);
  - the exporters;
  - `main`;
  - logging;
  - `src/error.rs`.
