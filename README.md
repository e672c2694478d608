# Odoo telemetry bootstrap and load generator, modelled in Dafny

This project models two Odoo add-ons from the ForgeFlow Grafana monitoring
repository:

* `monitoring_otel` is loaded server-wide. Its `post_load` hook decides, from the
  server's concurrency mode, how OpenTelemetry gets wired in:
  * gevent: a metrics provider and one presence gauge;
  * prefork: the HTTP and cron workers get a patched `run`;
  * threaded: just a warning.

  Each patched `run` does the following, in order:
  1. configures the log, metric and trace providers on one resource;
  2. instruments each of three areas whose environment flag is set:
     * logs, a new handler moved ahead of Odoo's default root handler;
     * HTTP metrics, each PerfFilter the loop over the `werkzeug` logger's filters examines is removed (one placed right after a removed one is never examined and survives), then a gauge-setting MetricsFilter is appended;
     * a comma-separated list of libraries, looked up in a two-entry registry (`wsgi`, `psycopg2`);
  3. runs the original `Worker.run`.
* `monitoring_dummy` gives HTTP routes that put load on the Python process and on
  PostgreSQL, and a model that sends the SQL for them.

The modules of the project:

| file | module | what it holds |
|---|---|---|
| `py_strings.dfy` | `PyStrings` | The Python builtins the add-ons depend on: `str.split`, `str.join`, `str(int)`, and reading that text back. |
| `otel_sdk.dfy` | `OtelSdk` | The resource dict. `Event`, one value per `set_*_provider` call, per meter or gauge creation, per instrumentor call, per worker-class patch and per log line. Gauge `.set()` calls and the handler construction are not `Event`s. |
| `otel_logging.dfy` | `OtelLogging` | Handlers and filters as classes, because Python compares them by identity. The handler reordering. The remove-while-iterating filter loop and the `Survivors` reference reading of it. `CustomHandler.emit`. The gauge values of `MetricsFilter.filter`. |
| `otel_libraries.dfy` | `OtelLibraries` | The registry, the events each library name produces, and the wrapping of the WSGI application. |
| `otel_bootstrap.dfy` | `OtelBootstrap` | `post_load`'s decision. The step sequence of a patched `run`, with the events it records. |
| `otel_worker.dfy` | `OtelWorker` | `Process`, one prefork worker as a class. Its fields are `os.environ`, `odoo.http.root`, the root handlers, the `werkzeug` filters and the event trace. Each instrumentation function is a method that updates these in place and is proved against the functions above. |
| `dummy_model.dfy` | `DummyModel` | The `monitoring.dummy` methods. The cursor is a class whose statement log `execute` appends to. |
| `dummy_controller.dfy` | `DummyController` | The four routes, as functions from path parameter to model calls and outcome. |

## Model

| member | source | states |
|---|---|---|
| PyStrings.Split | odoo/addons/monitoring_otel/__init__.py:120 | `str.split` never returns an empty list: `"".split(",")` is `[""]` |
| PyStrings.SplitLength | odoo/addons/monitoring_otel/__init__.py:120 | there is exactly one more field than there are separators |
| PyStrings.SplitFieldsLackSeparator | odoo/addons/monitoring_otel/__init__.py:120 | no field contains the separator |
| PyStrings.JoinSplit | odoo/addons/monitoring_otel/__init__.py:120 | joining the fields with the separator gives back the original string |
| PyStrings.Join | odoo/addons/monitoring_dummy/models/dummy.py:20 | the definition of `sep.join(parts)`: the parts with `sep` between each neighbouring pair; `JoinSplit`, `SplitJoin` and `JoinSeparatorCount` state it |
| PyStrings.SplitPrefix | odoo/addons/monitoring_otel/__init__.py:120 | a prefix with no separator in it is glued onto the first field of what follows |
| PyStrings.SplitAtSeparator | odoo/addons/monitoring_otel/__init__.py:120 | a separator-free prefix followed by the separator becomes its own first field |
| PyStrings.SplitWithoutSeparator | odoo/addons/monitoring_otel/__init__.py:120 | a string without the separator is a single field |
| PyStrings.SplitJoin | odoo/addons/monitoring_dummy/models/dummy.py:20 | splitting `sep.join(parts)` gives back `parts` when no part contains `sep` (the other round trip) |
| PyStrings.JoinSeparatorCount | odoo/addons/monitoring_dummy/models/dummy.py:20 | joining n such parts inserts exactly n - 1 separators |
| PyStrings.Repeat | odoo/addons/monitoring_dummy/models/dummy.py:20 | the list comprehension holds n elements, each equal to the given one |
| PyStrings.NatToString | odoo/addons/monitoring_dummy/models/dummy.py:20 | `str(n)` is a non-empty run of decimal digits with no leading zero |
| PyStrings.IntToString | odoo/addons/monitoring_dummy/models/dummy.py:16 | `str(i)` is decimal digits with a leading minus exactly when `i < 0` |
| PyStrings.NatToStringValue | odoo/addons/monitoring_dummy/models/dummy.py:20 | reading the digits of `str(n)` gives back `n` |
| PyStrings.IntToStringRoundTrip | odoo/addons/monitoring_dummy/models/dummy.py:16 | `int(str(i)) == i` for every integer |
| PyStrings.IntToStringInjective | odoo/addons/monitoring_dummy/models/dummy.py:16 | different integers render differently |
| PyStrings.CountPositive | odoo/addons/monitoring_otel/__init__.py:121-124 | a name occurs in the list exactly when it is counted at least once (used for "some name was wsgi") |
| OtelSdk.CreateResource | odoo/addons/monitoring_otel/__init__.py:92-102 | the resource holds exactly the six attribute keys; `service.name` is "odoo", `worker` is the pid, the instance id is the generated one |
| OtelSdk.DeploymentEnvironmentDefault | odoo/addons/monitoring_otel/__init__.py:98 | `deployment.environment` is "unknown" only when `ODOO_ENVIRONMENT` is absent; a value that is set, even "", is used as is |
| OtelSdk.ProviderEvents | odoo/addons/monitoring_otel/__init__.py:86-90 | the definition: the logs, metrics and traces providers are set in that order, all on the same resource; `ConfigureProviders` is proved to record exactly these |
| OtelSdk.HttpMetricsEvents | odoo/addons/monitoring_otel/__init__.py:159-171 | the definition: the meter "odoo", then the gauges `odoo.query_count`, `odoo.query_time` and `odoo.remaining_time`, in that order; `InstrumentHttpMetrics` is proved to record exactly these |
| OtelBootstrap.ModuleNameIsMonitoringOtel | odoo/addons/monitoring_otel/__init__.py:38 | the last dotted segment of the package name is `monitoring_otel` |
| OtelBootstrap.ModuleName | odoo/addons/monitoring_otel/__init__.py:38 | the definition: the last segment of `__name__` split on dots; `ModuleNameIsMonitoringOtel` proves its value |
| OtelBootstrap.FlagSet | odoo/addons/monitoring_otel/__init__.py:65-70 | the definition of `os.environ.get(name)` being truthy: the variable is present and not empty; the step gates below are stated with it |
| OtelBootstrap.GeventEvents | odoo/addons/monitoring_otel/__init__.py:51-59 | the definition: a metrics provider on the resource, the meter "odoo" and the observable gauge `odoo.deployment_info`; `PostLoadEffects` states them for the evented branch |
| OtelBootstrap.PostLoad | odoo/addons/monitoring_otel/__init__.py:37-48 | the definition: the events of the branch `PostLoadMode` selects; `PostLoadEffects` states each branch's events by its inputs |
| OtelBootstrap.LoadedServerWide | odoo/addons/monitoring_otel/__init__.py:39 | the definition: `monitoring_otel` is among the server-wide modules; `PostLoadMode` states the branches by it |
| OtelBootstrap.PostLoadMode | odoo/addons/monitoring_otel/__init__.py:37-48 | four iff's. Not loaded server-wide: abort. Evented: gevent, whatever the worker count. Not evented with a non-zero worker count: prefork. Otherwise: threaded |
| OtelBootstrap.PostLoadEffects | odoo/addons/monitoring_otel/__init__.py:37-59 | the events of each branch: one error line; metrics provider, meter "odoo" and the `odoo.deployment_info` gauge; both worker patches; one warning line |
| OtelBootstrap.Gated | odoo/addons/monitoring_otel/__init__.py:65-70 | an `if os.environ.get(...)` call happens exactly when its flag is set |
| OtelBootstrap.FlagSteps | odoo/addons/monitoring_otel/__init__.py:65-70 | the flag-gated calls come in source order (logs, metrics, libraries), each at most once |
| OtelBootstrap.RunSteps | odoo/addons/monitoring_otel/__init__.py:63-81 | a run starts with the provider configuration and ends with `Worker.run`, and every step keeps the source order |
| OtelBootstrap.LibrariesValue | odoo/addons/monitoring_otel/__init__.py:70 | the definition of `os.environ["ODOO_INSTRUMENT_LIBRARIES"]`, read only when the flag is set; `LibrariesStepGate` states the step runs on exactly the flag's value |
| OtelBootstrap.LogsStepGate | odoo/addons/monitoring_otel/__init__.py:65-66 | logs are instrumented iff `ODOO_INSTRUMENT_LOGS` is set and non-empty |
| OtelBootstrap.HttpMetricsStepGate | odoo/addons/monitoring_otel/__init__.py:67-68 | HTTP metrics are instrumented iff this is the HTTP worker and `ODOO_INSTRUMENT_METRICS` is set |
| OtelBootstrap.CronMetricsStepGate | odoo/addons/monitoring_otel/__init__.py:77-78 | the cron metrics hook runs iff this is the cron worker and the metrics flag is set |
| OtelBootstrap.LibrariesStepGate | odoo/addons/monitoring_otel/__init__.py:69-70 | libraries are instrumented iff their flag is set, and then on exactly the flag's value |
| OtelBootstrap.RunStepsParts | odoo/addons/monitoring_otel/__init__.py:63-81 | a run's steps are the two fixed steps plus the three gated parts, and nothing else |
| OtelBootstrap.InertBaseline | odoo/addons/monitoring_otel/__init__.py:63-81 | with no flag set (or each set to ""), a run only configures the providers and runs the worker |
| OtelBootstrap.StepEvents | odoo/addons/monitoring_otel/__init__.py:63-81 | the definition of the events each call of a patched `run` records: the three provider calls, nothing for the logs and cron-metrics steps, the meter and gauges for HTTP metrics, the libraries loop's events, and `Worker.run`; `StepRunsNoWorker` and `HttpRun`/`CronRun` state it |
| OtelBootstrap.StepsTrace | odoo/addons/monitoring_otel/__init__.py:63-81 | the definition: the events of a step sequence, step by step; `StepsTraceAppend`, `FramedTrace` and `RunTraceShape` state it |
| OtelBootstrap.StepsTraceAppend | odoo/addons/monitoring_otel/__init__.py:63-81 | the recorded events of consecutive steps are consecutive |
| OtelBootstrap.StepRunsNoWorker | odoo/addons/monitoring_otel/__init__.py:64-70 | no step other than the last one calls `Worker.run` |
| OtelBootstrap.NoWorkerRunBefore | odoo/addons/monitoring_otel/__init__.py:64-70 | steps without `Worker.run` record no call of it |
| OtelBootstrap.NoWorkerRunInLibraries | odoo/addons/monitoring_otel/__init__.py:119-126 | instrumenting libraries never runs the worker |
| OtelBootstrap.FramedTrace | odoo/addons/monitoring_otel/__init__.py:63-81 | framing steps with the configuration and `Worker.run` frames their events with the three provider calls and the worker call |
| OtelBootstrap.RunTraceShape | odoo/addons/monitoring_otel/__init__.py:63-81 | a run's events begin with the log, metric and trace provider calls and end with the one and only `Worker.run` |
| OtelLibraries.LibraryEventsAppend | odoo/addons/monitoring_otel/__init__.py:121-126 | the loop's events split at any point of the name list |
| OtelLibraries.LibraryEventsSingle | odoo/addons/monitoring_otel/__init__.py:122-126 | one name produces its info line and instrumentation, or a warning |
| OtelLibraries.UnknownNameSkipped | odoo/addons/monitoring_otel/__init__.py:125-126 | an unregistered name yields a single warning, and the names after it are still processed |
| OtelLibraries.Psycopg2CallCount | odoo/addons/monitoring_otel/__init__.py:121-124 | the psycopg2 instrumentor is called once per occurrence of "psycopg2", with no de-duplication |
| OtelLibraries.PaddedNameSkipped | odoo/addons/monitoring_otel/__init__.py:122 | an empty name, or one starting or ending with a space, only draws the warning |
| OtelLibraries.SpaceAfterCommaNotTrimmed | odoo/addons/monitoring_otel/__init__.py:120-126 | in "a, b" the second name is " b", so "wsgi, psycopg2" leaves psycopg2 uninstrumented |
| OtelLibraries.RegistryEntries | odoo/addons/monitoring_otel/__init__.py:197-199 | the registry `otel_library_instrumentation` has exactly the keys "wsgi" and "psycopg2", bound to their instrumentations |
| OtelLibraries.NameEvents | odoo/addons/monitoring_otel/__init__.py:122-126 | the definition of one loop iteration's events; `LibraryEventsSingle`, `UnknownNameSkipped` and `PaddedNameSkipped` state them |
| OtelLibraries.LibraryEvents | odoo/addons/monitoring_otel/__init__.py:121-126 | the definition of the loop's events, name by name from the left; `LibraryEventsAppend` and `Psycopg2CallCount` state its properties |
| OtelLibraries.Wrapped | odoo/addons/monitoring_otel/__init__.py:133-134 | the definition: the application wrapped n times in the middleware; `InstrumentLibraries` and `HttpRun` state the wrap count with it |
| OtelLibraries.InstrumentingMessage | odoo/addons/monitoring_otel/__init__.py:123 | the definition of the info line `Instrumenting library '<name>'`; `LibraryEventsSingle` states when it is logged |
| OtelLibraries.NotFoundMessage | odoo/addons/monitoring_otel/__init__.py:126 | the definition of the warning `Instrumentation for library '<name>' not found`; `UnknownNameSkipped` and `PaddedNameSkipped` state when it is logged |
| OtelLogging.AppendIfAbsent | odoo/addons/monitoring_otel/__init__.py:153 | `addHandler`/`addFilter` leave the list unchanged when the object is already in it and otherwise append it at the end; either way the object is in the list, and the list still has no repeats |
| OtelLogging.Reordered | odoo/addons/monitoring_otel/__init__.py:153-155 | the definition: `addHandler(h)`, then `addHandler(handlers.pop(0))`; `ReorderedShape` states the resulting list |
| OtelLogging.ReorderedShape | odoo/addons/monitoring_otel/__init__.py:152-155 | `[h0, h1..hn]` becomes `[h1..hn, new, h0]` and `[]` becomes `[new]`: the new handler runs before the old first handler. The length grows by one and there are still no repeats |
| OtelLogging.RemoveFirst | odoo/addons/monitoring_otel/__init__.py:188 | `list.remove(x)` deletes the first position holding `x` and keeps every other element in order; without `x` the list is left alone |
| OtelLogging.RemoveFirstAt | odoo/addons/monitoring_otel/__init__.py:188 | on a list without repeats, removing `s[k]` removes position k |
| OtelLogging.RemoveFirstDistinct | odoo/addons/monitoring_otel/__init__.py:188 | removal keeps the list free of repeats |
| OtelLogging.IsPerfFilter | odoo/addons/monitoring_otel/__init__.py:187 | the definition of `isinstance(filt, PerfFilter)`, true of PerfFilters and of the MetricsFilter subclass; `RemoveLoop` and the `Survivors` lemmas are stated with it |
| OtelLogging.FirstIndex | odoo/addons/monitoring_otel/__init__.py:188 | the position `list.remove` deletes: it holds the element, and no earlier position does |
| OtelLogging.RemoveLoop | odoo/addons/monitoring_otel/__init__.py:186-188 | the definition: Python's list iterator over a list the loop body shrinks, the cursor moving on by one after each element; `RemoveLoopIsSurvivors` characterises it |
| OtelLogging.Survivors | odoo/addons/monitoring_otel/__init__.py:186-188 | the reference reading of that loop on a list without repeats: a PerfFilter is dropped and its successor kept unexamined; the `Survivors` lemmas state what it keeps |
| OtelLogging.RemoveLoopSubset | odoo/addons/monitoring_otel/__init__.py:186-188 | the loop only ever drops filters |
| OtelLogging.RemoveLoopDistinct | odoo/addons/monitoring_otel/__init__.py:186-188 | the loop keeps the list free of repeats |
| OtelLogging.RemoveLoopIsSurvivors | odoo/addons/monitoring_otel/__init__.py:186-188 | the loop as Python's list iterator runs it equals the reference reading `Survivors`: after a removal, the next filter slides under the cursor and is never examined |
| OtelLogging.SurvivorsKeptStep | odoo/addons/monitoring_otel/__init__.py:186-187 | a non-PerfFilter is kept and the loop moves on |
| OtelLogging.SurvivorsRemovedStep | odoo/addons/monitoring_otel/__init__.py:186-188 | a removed PerfFilter's successor is kept unexamined |
| OtelLogging.NonPerf | odoo/addons/monitoring_otel/__init__.py:187 | the non-PerfFilters of a list are list members that are not PerfFilters |
| OtelLogging.SurvivorsKeepNonPerf | odoo/addons/monitoring_otel/__init__.py:186-188 | every non-PerfFilter survives, in its original order |
| OtelLogging.AdjacentPerfFilterSurvives | odoo/addons/monitoring_otel/__init__.py:186-188 | of two adjacent PerfFilters, the second is never examined and stays |
| OtelLogging.IsolatedPerfFiltersRemoved | odoo/addons/monitoring_otel/__init__.py:186-188 | if no two PerfFilters are adjacent, every PerfFilter is removed: the list becomes its non-PerfFilters |
| OtelLogging.SurvivorsFromList | odoo/addons/monitoring_otel/__init__.py:186-188 | survivors come from the list |
| OtelLogging.SurvivingPerfFilterFollowsPerfFilter | odoo/addons/monitoring_otel/__init__.py:186-188 | a PerfFilter that survives sat right after another PerfFilter |
| OtelLogging.SurvivorsZeroHeadRemoved | odoo/addons/monitoring_otel/__init__.py:186-188 | a PerfFilter at the head of the list never survives |
| OtelLogging.HeadNotInSuffix | odoo/addons/monitoring_otel/__init__.py:186-188 | on a list without repeats, the head does not occur again further on |
| OtelLogging.Emit | odoo/addons/monitoring_otel/__init__.py:144-147 | an exception message is replaced by its `str()`, any other record is passed on unchanged, and the delivered message is never an exception |
| OtelLogging.MetricsFilterGauges | odoo/addons/monitoring_otel/__init__.py:174-183 | no gauge is set on a thread without counters. Otherwise three are set in order: the query count, then the query time as read, then the rest of the elapsed time since `perf_t0`; the last two add up to that elapsed time |
| OtelWorker.Process.constructor | odoo/addons/monitoring_otel/__init__.py:63 | a worker starts with Odoo's own application, the given environment, handlers and filters, and an empty trace |
| OtelWorker.Process.ConfigureProviders | odoo/addons/monitoring_otel/__init__.py:86-117 | logs, metrics and traces providers are set, in that order, on one resource read from the current environment; nothing else changes |
| OtelWorker.Process.InstrumentLogs | odoo/addons/monitoring_otel/__init__.py:141-155 | a fresh handler with the DBFormatter format is added, and the old first handler is moved to the end (`Reordered`). On a list without repeats this gives the exact shape, and the no-repeat invariant is kept |
| OtelWorker.Process.RemovePerfFilters | odoo/addons/monitoring_otel/__init__.py:185-188 | the while loop with a cursor computes `RemoveLoop` of the old filter list |
| OtelWorker.Process.InstrumentHttpMetrics | odoo/addons/monitoring_otel/__init__.py:158-191 | the meter and the three gauges are created, and the filters become `RemoveLoop(old) + [new MetricsFilter]`. On a list without repeats that is `Survivors(old) + [new]`, and the invariant is kept |
| OtelWorker.Process.InstrumentWsgi | odoo/addons/monitoring_otel/__init__.py:131-134 | the opt-in variable is set to "http" and the application is wrapped once more |
| OtelWorker.Process.InstrumentPsycopg2 | odoo/addons/monitoring_otel/__init__.py:138-139 | exactly one instrumentor call is recorded |
| OtelWorker.Process.InstrumentLibrary | odoo/addons/monitoring_otel/__init__.py:122-126 | one name: its events; "wsgi" wraps the application and sets the opt-in; any other name leaves both unchanged |
| OtelWorker.Process.InstrumentLibraries | odoo/addons/monitoring_otel/__init__.py:119-126 | the events of every name of the comma-split list, in order. The application is wrapped once per "wsgi", and the opt-in is set iff some name is "wsgi" |
| OtelWorker.Process.LogsFlagStep | odoo/addons/monitoring_otel/__init__.py:65-66 | a handler is installed iff the logs flag is set; it is a fresh `CustomHandler` with the DBFormatter format, placed by `Reordered` |
| OtelWorker.Process.HttpMetricsFlagStep | odoo/addons/monitoring_otel/__init__.py:67-68 | the filter replacement happens iff the metrics flag is set, and then the filters become `RemoveLoop(old)` plus a fresh MetricsFilter |
| OtelWorker.Process.LibrariesFlagStep | odoo/addons/monitoring_otel/__init__.py:69-70 | the libraries loop runs on the flag's value iff the flag is set |
| OtelWorker.Process.InstrumentCronMetrics | odoo/addons/monitoring_otel/__init__.py:193-195 | the placeholder hook: a method that changes nothing |
| OtelWorker.Process.HttpRun | odoo/addons/monitoring_otel/__init__.py:63-71 | the trace grows by exactly the events of `RunSteps` for the HTTP worker. A `CustomHandler` with the DBFormatter format is installed iff the logs flag is set, and a fresh MetricsFilter iff the metrics flag is set. The application is wrapped once per listed "wsgi". The no-repeat invariant is kept |
| OtelWorker.Process.CronRun | odoo/addons/monitoring_otel/__init__.py:73-81 | the same for the cron worker, with the same handler kind, whose metrics step records nothing and leaves the `werkzeug` filters alone |
| OtelWorker.RunTraceParts | odoo/addons/monitoring_otel/__init__.py:63-81 | the events the step methods add up to are those `RunSteps` prescribes |
| OtelWorker.MetricsPartTrace | odoo/addons/monitoring_otel/__init__.py:67-68 | only the HTTP worker's metrics step records events |
| OtelWorker.LibrariesPartTrace | odoo/addons/monitoring_otel/__init__.py:69-70 | the libraries step records the loop's events on the flag's value |
| OtelWorker.GatedTrace | odoo/addons/monitoring_otel/__init__.py:65-80 | a gated step records its events or nothing |
| OtelWorker.FramedTriple | odoo/addons/monitoring_otel/__init__.py:63-81 | the events of the configuration, the three gated parts and `Worker.run`, in order |
| OtelWorker.LibraryStep | odoo/addons/monitoring_otel/__init__.py:121-126 | one more name processed keeps the loop invariant `LibrariesDone` |
| OtelWorker.PrefixStep | odoo/addons/monitoring_otel/__init__.py:121-126 | the first k + 1 names are the first k followed by name k |
| DummyModel.Cursor.Execute | odoo/addons/monitoring_dummy/models/dummy.py:16 | `cr.execute` appends the statement to the cursor's log |
| DummyModel.SleepStatement | odoo/addons/monitoring_dummy/models/dummy.py:16 | the definition: `SELECT PG_SLEEP(<str(seconds)>)`; `SleepStatementArgument` proves the argument reads back |
| DummyModel.Tuple | odoo/addons/monitoring_dummy/models/dummy.py:20 | the definition of `f"({i})"`; `TupleLacksComma` and `TupleValue` state its properties |
| DummyModel.ValuesList | odoo/addons/monitoring_dummy/models/dummy.py:20 | the definition of the comma-joined comprehension; `ValuesListTuples` proves it holds ten copies of `(i)` |
| DummyModel.WorkStatement | odoo/addons/monitoring_dummy/models/dummy.py:21-25 | the definition: the VALUES list inside the triple-quoted statement text; `WorkStatementsDistinct` proves it determines the index |
| DummyModel.WorkStatements | odoo/addons/monitoring_dummy/models/dummy.py:18-25 | `range(iterations)` gives `max(0, iterations)` statements |
| DummyModel.WorkStatementsAt | odoo/addons/monitoring_dummy/models/dummy.py:19-25 | statement k is the one built for loop index k |
| DummyModel.MonitoringDummy.DummyPythonSleep | odoo/addons/monitoring_dummy/models/dummy.py:12-13 | one sleep of the given duration, and no SQL |
| DummyModel.MonitoringDummy.DummyPostgresSleep | odoo/addons/monitoring_dummy/models/dummy.py:15-16 | exactly one statement, `SELECT PG_SLEEP(<seconds>)`, and no Python sleep |
| DummyModel.MonitoringDummy.DummyPostgresWork | odoo/addons/monitoring_dummy/models/dummy.py:18-25 | the loop sends, in index order, exactly the statements `WorkStatements(iterations)` and nothing else |
| DummyModel.TupleLacksComma | odoo/addons/monitoring_dummy/models/dummy.py:20 | a tuple `(i)` contains no comma |
| DummyModel.ValuesListTuples | odoo/addons/monitoring_dummy/models/dummy.py:20 | the VALUES list splits back into ten tuples, all `(i)` (the loop variable `j` is unused), joined by nine commas |
| DummyModel.TupleValue | odoo/addons/monitoring_dummy/models/dummy.py:20 | each tuple holds the value i |
| DummyModel.SleepStatementArgument | odoo/addons/monitoring_dummy/models/dummy.py:16 | the PG_SLEEP argument reads back as the requested seconds |
| DummyModel.WorkStatementsDistinct | odoo/addons/monitoring_dummy/models/dummy.py:19-25 | different loop indices send different statements |
| DummyController.SleepTotal | odoo/addons/monitoring_dummy/controllers/dummy.py:10 | `max(2, seconds)`: at least 2, at least `seconds`, and one of the two |
| DummyController.DatabaseIterations | odoo/addons/monitoring_dummy/controllers/dummy.py:19 | `max(1, iterations)`: at least 1, at least `iterations`, and one of the two |
| DummyController.SleepSplitPossible | odoo/addons/monitoring_dummy/controllers/dummy.py:10-11 | the clamp leaves `randrange(1, total)` a value to pick, so it cannot raise |
| DummyController.RandRange | odoo/addons/monitoring_dummy/controllers/dummy.py:11 | the definition of what `random.randrange(lo, hi)` may return, `lo <= x < hi`; `SleepSplitPossible` proves it has a value and `DummySleep` requires it of the pick |
| DummyController.DummySleep | odoo/addons/monitoring_dummy/controllers/dummy.py:8-15 | the Python sleep comes first with the random pick, then the PostgreSQL sleep. Both durations are between 1 and total - 1 and add up to the total. The route returns "OK" |
| DummyController.DummyDatabase | odoo/addons/monitoring_dummy/controllers/dummy.py:17-21 | one work call on exactly `max(1, iterations)`; returns "OK" |
| DummyController.DummyPass | odoo/addons/monitoring_dummy/controllers/dummy.py:23-25 | "OK", and nothing is called |
| DummyController.DummyError | odoo/addons/monitoring_dummy/controllers/dummy.py:27-29 | always raises `UserError("ERROR")` and calls nothing |
| DummyController.CallStatements | odoo/addons/monitoring_dummy/models/dummy.py:12-25 | the definition: the SQL each model call sends (none for the Python sleep, one PG_SLEEP, or `WorkStatements(n)`); `DatabaseRoundTrips` and `SleepRoundTrips` state it |
| DummyController.HandledStatements | odoo/addons/monitoring_dummy/controllers/dummy.py:8-21 | the definition: the statements of a route's model calls, in call order; `DatabaseRoundTrips` and `SleepRoundTrips` state it |
| DummyController.DatabaseRoundTrips | odoo/addons/monitoring_dummy/controllers/dummy.py:17-21 | a database request sends `max(1, iterations)` statements, those for indices 0, 1, ... in order |
| DummyController.SleepRoundTrips | odoo/addons/monitoring_dummy/controllers/dummy.py:8-15 | a sleep request sends exactly one statement, which sleeps for the rest of the total |

## Left out

- The SDK's internals are not modelled; their behaviour belongs to the OpenTelemetry packages, which are not part of this model.
  What stands in for each piece:
  * Providers, processors and OTLP exporters: one `Event` per `set_*_provider` call. Meters and gauges: one `Event` per creation.
  * `Resource.create`: the attribute dict `CreateResource` builds. Its merging with the SDK's default attributes is left out.
  * Gauge recording: the `GaugeSet` values `MetricsFilterGauges` returns, not an `Event`.
  * The WSGI middleware: the `OtelMiddleware` wrapper of the `Application` value in `Process.httpRoot`, not an `Event`.
  * The `CustomHandler()` construction: a fresh `Handler` object of kind `OtelLogsHandler`, not an `Event`.
- The gevent gauge's callback is left out. It runs inside the SDK at collection time, so the model keeps only the gauge's creation.
- Monkey-patching mechanics are left out. Rebinding `WorkerHTTP.run`/`WorkerCron.run` is recorded as a
  `PatchRun` event, and `HttpRun`/`CronRun` model the functions being bound. Python's class attribute machinery is not modelled.
- Process identity is an input. `os.uname().nodename`, `odoo.release.version`, `uuid4()` and `os.getpid()` form the
  `Identity` parameter, because they are facts about the host and randomness.
- `random.randrange`'s pick in `dummy_sleep` is an input. It is constrained only by the bounds `randrange` guarantees.
- Time is not modelled. `time.sleep` and PG_SLEEP are recorded as requests, not waited out, and `time.time()` is a
  parameter of `MetricsFilterGauges`. Timing values are exact reals rather than floating point.
- `DummyPythonSleep` does not model the `ValueError` that `time.sleep` raises for a negative duration. The route clamps so that
  only positive values reach it.
- `Emit`'s delivered message is the exception's `str()`, taken as an input string of the `PyException` value. It stops
  at the record handed to `LoggingHandler.emit`: the formatter, the handler chain and the exporter are SDK or
  `logging` internals. The source rewrites `record.msg` on the shared record, so every handler after `CustomHandler`, including the old first handler moved behind it, also sees the `str()`; the model returns only the record `CustomHandler` delivers and does not model that sharing. BaseExceptions that are not Exceptions are not distinguished.
- `MetricsFilterGauges` leaves out the boolean verdict that `PerfFilter.filter` returns afterwards. That verdict is Odoo's own code, which is not part of this model.
- `InstrumentCronMetrics` is modelled as the empty method it is: the source leaves it as a placeholder.
- Concurrency is not modelled, and neither is the SQL executed by PostgreSQL: the cursor records its statements.
- `DummyPostgresWork` draws each statement from the precomputed `WorkStatements(iterations)` rather than
  formatting it inside the loop. `WorkStatementsAt` proves statement k is exactly what iteration k formats.
- The `locust` load script and the add-on manifests are not part of this model.
