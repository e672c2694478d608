/** One prefork worker process as the patched `run` sees it: the environment, the
    WSGI application `odoo.http.root`, the root logger's handlers, the `werkzeug`
    logger's filters, and the record of calls into the telemetry SDK. The
    instrumentation functions of the bootstrap are methods that update it in place. */
module OtelWorker {
  import opened PyStrings
  import opened OtelSdk
  import opened OtelLogging
  import opened OtelLibraries
  import opened OtelBootstrap

  class Process {
    /** `os.environ`. */
    var env: map<string, string>
    /** `odoo.http.root`. */
    var httpRoot: Application
    /** `logging.getLogger().handlers`. */
    var rootHandlers: seq<Handler>
    /** `logging.getLogger("werkzeug").filters`. */
    var werkzeugFilters: seq<Filter>
    /** The calls made into the telemetry SDK and the bootstrap's log lines, in order. */
    var trace: seq<Event>

    /** `logging` never holds the same handler or filter twice when every handler and
        filter went in through `addHandler` / `addFilter`. A worker may start from any
        lists (`Logger.handlers` is a plain attribute that Odoo or a library can
        assign), so the constructor does not promise it; every method keeps it when
        it held before the call. */
    ghost predicate Valid()
      reads this
    {
      Distinct(rootHandlers) && Distinct(werkzeugFilters)
    }

    constructor (env: map<string, string>, rootHandlers: seq<Handler>, werkzeugFilters: seq<Filter>)
      ensures this.env == env && httpRoot == OdooApplication
      ensures this.rootHandlers == rootHandlers && this.werkzeugFilters == werkzeugFilters
      ensures trace == []
    {
      this.env := env;
      httpRoot := OdooApplication;
      this.rootHandlers := rootHandlers;
      this.werkzeugFilters := werkzeugFilters;
      trace := [];
    }

    /** `otel_configure_providers`: one resource, read from the current environment,
        for the log, metric and trace providers. */
    method ConfigureProviders(id: Identity)
      modifies this
      ensures trace == old(trace) + ProviderEvents(CreateResource(id, env))
      ensures env == old(env) && httpRoot == old(httpRoot)
      ensures rootHandlers == old(rootHandlers) && werkzeugFilters == old(werkzeugFilters)
    {
      var resource := CreateResource(id, env);
      trace := trace + [SetLoggerProvider(resource)];
      trace := trace + [SetMeterProvider(resource)];
      trace := trace + [SetTracerProvider(resource)];
    }

    /** `otel_instrument_logs`: a new handler is added to the root logger, then the
        first handler is popped and added back, so the new one runs before it. */
    method InstrumentLogs() returns (handler: Handler)
      modifies this
      ensures fresh(handler) && handler.kind == OtelLogsHandler(DbLogFormat)
      ensures rootHandlers == Reordered(old(rootHandlers), handler)
      ensures old(Valid()) && old(rootHandlers) == [] ==> rootHandlers == [handler]
      ensures old(Valid()) && old(rootHandlers) != [] ==>
        rootHandlers == old(rootHandlers)[1..] + [handler, old(rootHandlers)[0]]
      ensures old(Valid()) ==> Valid()
      ensures env == old(env) && httpRoot == old(httpRoot)
      ensures werkzeugFilters == old(werkzeugFilters) && trace == old(trace)
    {
      handler := new Handler(OtelLogsHandler(DbLogFormat));
      assert handler !in old(rootHandlers);
      rootHandlers := AppendIfAbsent(rootHandlers, handler);
      var first := rootHandlers[0];
      rootHandlers := rootHandlers[1..];
      rootHandlers := AppendIfAbsent(rootHandlers, first);
      if old(Valid()) {
        ReorderedShape(old(rootHandlers), handler);
      }
    }

    /** The loop of `otel_instrument_http_metrics`: every PerfFilter met while
        iterating over the `werkzeug` filter list is removed from that same list. */
    method RemovePerfFilters()
      modifies this
      ensures werkzeugFilters == RemoveLoop(old(werkzeugFilters), 0)
      ensures env == old(env) && httpRoot == old(httpRoot)
      ensures rootHandlers == old(rootHandlers) && trace == old(trace)
    {
      var i := 0;
      while i < |werkzeugFilters|
        invariant RemoveLoop(old(werkzeugFilters), 0) == RemoveLoop(werkzeugFilters, i)
        invariant env == old(env) && httpRoot == old(httpRoot)
        invariant rootHandlers == old(rootHandlers) && trace == old(trace)
        decreases |werkzeugFilters| - i
      {
        var filt := werkzeugFilters[i];
        if IsPerfFilter(filt) {
          werkzeugFilters := RemoveFirst(werkzeugFilters, filt);
        }
        i := i + 1;
      }
    }

    /** `otel_instrument_http_metrics`: three gauges are created, the PerfFilters
        are removed from the `werkzeug` logger while its filter list is being
        iterated, and a new MetricsFilter is added. */
    method InstrumentHttpMetrics() returns (metricsFilter: Filter)
      modifies this
      ensures fresh(metricsFilter) && metricsFilter.kind == MetricsFilterKind
      ensures werkzeugFilters == RemoveLoop(old(werkzeugFilters), 0) + [metricsFilter]
      ensures old(Valid()) ==> werkzeugFilters == Survivors(old(werkzeugFilters)) + [metricsFilter]
      ensures old(Valid()) ==> Valid()
      ensures trace == old(trace) + HttpMetricsEvents()
      ensures env == old(env) && httpRoot == old(httpRoot) && rootHandlers == old(rootHandlers)
    {
      trace := trace + [GetMeter(MeterName)];
      trace := trace + [CreateGauge(QueryCountGauge)];
      trace := trace + [CreateGauge(QueryTimeGauge)];
      trace := trace + [CreateGauge(RemainingTimeGauge)];
      RemovePerfFilters();
      metricsFilter := new Filter(MetricsFilterKind);
      RemoveLoopSubset(old(werkzeugFilters), 0);
      assert metricsFilter !in werkzeugFilters;
      werkzeugFilters := AppendIfAbsent(werkzeugFilters, metricsFilter);
      if old(Valid()) {
        RemoveLoopIsSurvivors(old(werkzeugFilters), 0);
        RemoveLoopDistinct(old(werkzeugFilters), 0);
      }
    }

    /** `otel_instrument_wsgi`: opt in to the stable HTTP conventions and wrap the
        application in the middleware. */
    method InstrumentWsgi()
      modifies this
      ensures env == old(env)[SemconvOptIn := "http"]
      ensures httpRoot == OtelMiddleware(old(httpRoot))
      ensures rootHandlers == old(rootHandlers) && werkzeugFilters == old(werkzeugFilters)
      ensures trace == old(trace)
    {
      env := env[SemconvOptIn := "http"];
      httpRoot := OtelMiddleware(httpRoot);
    }

    /** `otel_instrument_psycopg2`. */
    method InstrumentPsycopg2()
      modifies this
      ensures trace == old(trace) + [Event.InstrumentPsycopg2]
      ensures env == old(env) && httpRoot == old(httpRoot)
      ensures rootHandlers == old(rootHandlers) && werkzeugFilters == old(werkzeugFilters)
    {
      trace := trace + [Event.InstrumentPsycopg2];
    }

    /** The body of the `otel_instrument_libraries` loop for one name. */
    method InstrumentLibrary(library: string)
      modifies this
      ensures trace == old(trace) + NameEvents(library)
      ensures httpRoot == if library == "wsgi" then OtelMiddleware(old(httpRoot)) else old(httpRoot)
      ensures env == if library == "wsgi" then old(env)[SemconvOptIn := "http"] else old(env)
      ensures rootHandlers == old(rootHandlers) && werkzeugFilters == old(werkzeugFilters)
    {
      if library in Registry {
        trace := trace + [LogInfo(InstrumentingMessage(library))];
        if Registry[library] == Wsgi {
          InstrumentWsgi();
        } else {
          InstrumentPsycopg2();
        }
      } else {
        trace := trace + [LogWarning(NotFoundMessage(library))];
      }
    }

    /** `otel_instrument_libraries`: every name of the comma-split list, in order,
        is looked up in the registry; the application is wrapped once per "wsgi". */
    method InstrumentLibraries(libraries: string)
      modifies this
      ensures trace == old(trace) + LibraryEvents(Split(libraries, ','))
      ensures httpRoot == Wrapped(old(httpRoot), Count(Split(libraries, ','), "wsgi"))
      ensures env == if "wsgi" in Split(libraries, ',') then old(env)[SemconvOptIn := "http"] else old(env)
      ensures rootHandlers == old(rootHandlers) && werkzeugFilters == old(werkzeugFilters)
    {
      var names := Split(libraries, ',');
      var k := 0;
      while k < |names|
        invariant 0 <= k <= |names|
        invariant LibrariesDone(names, k, old(trace), old(httpRoot), old(env), trace, httpRoot, env)
        invariant rootHandlers == old(rootHandlers) && werkzeugFilters == old(werkzeugFilters)
      {
        ghost var t, r, e := trace, httpRoot, env;
        InstrumentLibrary(names[k]);
        LibraryStep(names, k, old(trace), old(httpRoot), old(env), t, r, e, trace, httpRoot, env);
        k := k + 1;
      }
      assert names[..k] == names;
      CountPositive(names, "wsgi");
    }

    /** The logs step of a patched `run`: `otel_instrument_logs()` when the flag is set. */
    method LogsFlagStep() returns (logHandler: Handler?)
      modifies this
      ensures FlagSet(old(env), LogsFlag) <==> logHandler != null
      ensures logHandler != null ==>
        && fresh(logHandler) && logHandler.kind == OtelLogsHandler(DbLogFormat)
        && rootHandlers == Reordered(old(rootHandlers), logHandler)
      ensures logHandler == null ==> rootHandlers == old(rootHandlers)
      ensures old(Valid()) ==> Valid()
      ensures env == old(env) && httpRoot == old(httpRoot)
      ensures werkzeugFilters == old(werkzeugFilters) && trace == old(trace)
    {
      logHandler := null;
      if FlagSet(env, LogsFlag) {
        logHandler := InstrumentLogs();
      }
    }

    /** The metrics step of `http_run`: `otel_instrument_http_metrics()` when the flag is set. */
    method HttpMetricsFlagStep() returns (metricsFilter: Filter?)
      modifies this
      ensures FlagSet(old(env), MetricsFlag) <==> metricsFilter != null
      ensures metricsFilter != null ==>
        && fresh(metricsFilter) && metricsFilter.kind == MetricsFilterKind
        && werkzeugFilters == RemoveLoop(old(werkzeugFilters), 0) + [metricsFilter]
      ensures metricsFilter == null ==> werkzeugFilters == old(werkzeugFilters)
      ensures trace == old(trace) + if FlagSet(old(env), MetricsFlag) then HttpMetricsEvents() else []
      ensures old(Valid()) ==> Valid()
      ensures env == old(env) && httpRoot == old(httpRoot) && rootHandlers == old(rootHandlers)
    {
      metricsFilter := null;
      if FlagSet(env, MetricsFlag) {
        metricsFilter := InstrumentHttpMetrics();
      }
    }

    /** The libraries step of a patched `run`: `otel_instrument_libraries` on the
        flag's value when the flag is set. */
    method LibrariesFlagStep()
      modifies this
      ensures trace == old(trace) +
        if FlagSet(old(env), LibrariesFlag) then LibraryEvents(Split(old(env)[LibrariesFlag], ',')) else []
      ensures httpRoot == Wrapped(old(httpRoot), LibraryWraps(old(env)))
      ensures env == if LibraryWraps(old(env)) > 0 then old(env)[SemconvOptIn := "http"] else old(env)
      ensures rootHandlers == old(rootHandlers) && werkzeugFilters == old(werkzeugFilters)
    {
      if FlagSet(env, LibrariesFlag) {
        CountPositive(Split(env[LibrariesFlag], ','), "wsgi");
        InstrumentLibraries(env[LibrariesFlag]);
      }
    }

    /** `http_run`, the patched `WorkerHTTP.run`: the steps of `RunSteps` for the
        HTTP worker, then the original `Worker.run`. The handler and filter it
        installs are returned, `null` when their step did not run. */
    method HttpRun(id: Identity) returns (logHandler: Handler?, metricsFilter: Filter?)
      modifies this
      ensures trace == old(trace) + StepsTrace(RunSteps(HttpWorker, old(env)), HttpWorker, CreateResource(id, old(env)))
      ensures FlagSet(old(env), LogsFlag) <==> logHandler != null
      ensures logHandler != null ==>
        && fresh(logHandler) && logHandler.kind == OtelLogsHandler(DbLogFormat)
        && rootHandlers == Reordered(old(rootHandlers), logHandler)
      ensures logHandler == null ==> rootHandlers == old(rootHandlers)
      ensures FlagSet(old(env), MetricsFlag) <==> metricsFilter != null
      ensures metricsFilter != null ==>
        && fresh(metricsFilter) && metricsFilter.kind == MetricsFilterKind
        && werkzeugFilters == RemoveLoop(old(werkzeugFilters), 0) + [metricsFilter]
      ensures metricsFilter == null ==> werkzeugFilters == old(werkzeugFilters)
      ensures httpRoot == Wrapped(old(httpRoot), LibraryWraps(old(env)))
      ensures env == if LibraryWraps(old(env)) > 0 then old(env)[SemconvOptIn := "http"] else old(env)
      ensures old(Valid()) ==> Valid()
    {
      ghost var env0, trace0 := env, trace;
      ghost var resource := CreateResource(id, env);
      ConfigureProviders(id);
      logHandler := LogsFlagStep();
      metricsFilter := HttpMetricsFlagStep();
      LibrariesFlagStep();
      trace := trace + [WorkerRun(HttpWorker)];
      RunTraceParts(HttpWorker, env0, resource, trace0, trace);
    }

    /** `cron_run`, the patched `WorkerCron.run`: the steps of `RunSteps` for the
        cron worker, whose metrics step does nothing, then the original `Worker.run`. */
    method CronRun(id: Identity) returns (logHandler: Handler?)
      modifies this
      ensures trace == old(trace) + StepsTrace(RunSteps(CronWorker, old(env)), CronWorker, CreateResource(id, old(env)))
      ensures FlagSet(old(env), LogsFlag) <==> logHandler != null
      ensures logHandler != null ==>
        && fresh(logHandler) && logHandler.kind == OtelLogsHandler(DbLogFormat)
        && rootHandlers == Reordered(old(rootHandlers), logHandler)
      ensures logHandler == null ==> rootHandlers == old(rootHandlers)
      ensures werkzeugFilters == old(werkzeugFilters)
      ensures httpRoot == Wrapped(old(httpRoot), LibraryWraps(old(env)))
      ensures env == if LibraryWraps(old(env)) > 0 then old(env)[SemconvOptIn := "http"] else old(env)
      ensures old(Valid()) ==> Valid()
    {
      ghost var env0, trace0 := env, trace;
      ghost var resource := CreateResource(id, env);
      ConfigureProviders(id);
      logHandler := LogsFlagStep();
      if FlagSet(env, MetricsFlag) {
        InstrumentCronMetrics();
      }
      ghost var configured := trace;
      assert configured == trace0 + ProviderEvents(resource) + [];
      LibrariesFlagStep();
      trace := trace + [WorkerRun(CronWorker)];
      RunTraceParts(CronWorker, env0, resource, trace0, trace);
    }

    /** `otel_instrument_cron_metrics`: does nothing yet. */
    method InstrumentCronMetrics()
    {
    }
  }

  /** How many times a run wraps `odoo.http.root`: once per "wsgi" in the library list. */
  function LibraryWraps(env: map<string, string>): nat
  {
    if FlagSet(env, LibrariesFlag) then Count(Split(env[LibrariesFlag], ','), "wsgi") else 0
  }

  /** A trace that grew by the provider configuration, the events of each step whose
      flag is set, and the call of `Worker.run` grew by the events of `RunSteps`. */
  lemma RunTraceParts(kind: WorkerKind, env: map<string, string>, resource: Resource,
                      before: seq<Event>, after: seq<Event>)
    requires after == before + ProviderEvents(resource)
      + (if FlagSet(env, MetricsFlag) && kind == HttpWorker then HttpMetricsEvents() else [])
      + (if FlagSet(env, LibrariesFlag) then LibraryEvents(Split(env[LibrariesFlag], ',')) else [])
      + [WorkerRun(kind)]
    ensures after == before + StepsTrace(RunSteps(kind, env), kind, resource)
  {
    var logs := Gated(FlagSet(env, LogsFlag), LogsStep);
    var metrics := Gated(FlagSet(env, MetricsFlag), if kind == HttpWorker then HttpMetricsStep else CronMetricsStep);
    var libraries := Gated(FlagSet(env, LibrariesFlag), LibrariesStep(LibrariesValue(env)));
    assert RunSteps(kind, env) == [ConfigureStep] + (logs + metrics + libraries) + [WorkerRunStep];
    FramedTriple(logs, metrics, libraries, kind, resource);
    GatedTrace(FlagSet(env, LogsFlag), LogsStep, kind, resource);
    MetricsPartTrace(kind, env, resource);
    LibrariesPartTrace(kind, env, resource);
    JoinParts(before, ProviderEvents(resource), StepsTrace(logs, kind, resource), StepsTrace(metrics, kind, resource),
              StepsTrace(libraries, kind, resource), [WorkerRun(kind)], after);
  }

  /** The events of the metrics part of a run: only `http_run` records any. */
  lemma MetricsPartTrace(kind: WorkerKind, env: map<string, string>, resource: Resource)
    ensures StepsTrace(Gated(FlagSet(env, MetricsFlag), if kind == HttpWorker then HttpMetricsStep else CronMetricsStep), kind, resource)
      == if FlagSet(env, MetricsFlag) && kind == HttpWorker then HttpMetricsEvents() else []
  {
    GatedTrace(FlagSet(env, MetricsFlag), if kind == HttpWorker then HttpMetricsStep else CronMetricsStep, kind, resource);
  }

  /** The events of the libraries part of a run. */
  lemma LibrariesPartTrace(kind: WorkerKind, env: map<string, string>, resource: Resource)
    ensures StepsTrace(Gated(FlagSet(env, LibrariesFlag), LibrariesStep(LibrariesValue(env))), kind, resource)
      == if FlagSet(env, LibrariesFlag) then LibraryEvents(Split(env[LibrariesFlag], ',')) else []
  {
    GatedTrace(FlagSet(env, LibrariesFlag), LibrariesStep(LibrariesValue(env)), kind, resource);
  }

  /** Sequence bookkeeping for `RunTraceParts`: an empty part drops out. */
  lemma JoinParts(before: seq<Event>, p: seq<Event>, sl: seq<Event>, sm: seq<Event>, sb: seq<Event>, w: seq<Event>,
                  after: seq<Event>)
    requires sl == [] && after == before + p + sm + sb + w
    ensures after == before + (p + sl + sm + sb + w)
  {
    assert p + sl == p;
  }

  /** The events of the three gated parts of a run, framed by the provider
      configuration and `Worker.run`. */
  lemma FramedTriple(a: seq<Step>, b: seq<Step>, c: seq<Step>, kind: WorkerKind, resource: Resource)
    ensures StepsTrace([ConfigureStep] + (a + b + c) + [WorkerRunStep], kind, resource)
      == ProviderEvents(resource) + StepsTrace(a, kind, resource) + StepsTrace(b, kind, resource)
         + StepsTrace(c, kind, resource) + [WorkerRun(kind)]
  {
    var sa, sb, sc := StepsTrace(a, kind, resource), StepsTrace(b, kind, resource), StepsTrace(c, kind, resource);
    FramedTrace(a + b + c, kind, resource);
    StepsTraceAppend(a + b, c, kind, resource);
    StepsTraceAppend(a, b, kind, resource);
    Regroup(ProviderEvents(resource), sa, sb, sc, [WorkerRun(kind)], StepsTrace(a + b + c, kind, resource));
  }

  /** Sequence bookkeeping for `FramedTriple`: regrouping a concatenation. */
  lemma Regroup(p: seq<Event>, x: seq<Event>, y: seq<Event>, z: seq<Event>, w: seq<Event>, mid: seq<Event>)
    requires mid == x + y + z
    ensures p + mid + w == p + x + y + z + w
  {
  }

  /** The gated list records its step's events or nothing. */
  lemma GatedTrace(flag: bool, s: Step, kind: WorkerKind, resource: Resource)
    ensures StepsTrace(Gated(flag, s), kind, resource) == if flag then StepEvents(s, kind, resource) else []
  {
    if flag {
      assert Gated(flag, s) == [s];
      assert StepsTrace([s], kind, resource) == StepEvents(s, kind, resource) + StepsTrace([], kind, resource);
    }
  }

  /** The state after the first `k` names: their events recorded, the application
      wrapped once per "wsgi" among them, the opt-in set if there was one. */
  predicate LibrariesDone(names: seq<string>, k: nat, trace0: seq<Event>, root0: Application, env0: map<string, string>,
                          trace: seq<Event>, root: Application, env: map<string, string>)
    requires k <= |names|
  {
    && trace == trace0 + LibraryEvents(names[..k])
    && root == Wrapped(root0, Count(names[..k], "wsgi"))
    && env == if Count(names[..k], "wsgi") > 0 then env0[SemconvOptIn := "http"] else env0
  }

  /** One more name processed: its events follow, a "wsgi" adds one wrap and sets the opt-in. */
  lemma LibraryStep(names: seq<string>, k: nat, trace0: seq<Event>, root0: Application, env0: map<string, string>,
                    t: seq<Event>, r: Application, e: map<string, string>,
                    t': seq<Event>, r': Application, e': map<string, string>)
    requires k < |names| && LibrariesDone(names, k, trace0, root0, env0, t, r, e)
    requires t' == t + NameEvents(names[k])
    requires r' == if names[k] == "wsgi" then OtelMiddleware(r) else r
    requires e' == if names[k] == "wsgi" then e[SemconvOptIn := "http"] else e
    ensures LibrariesDone(names, k + 1, trace0, root0, env0, t', r', e')
  {
    PrefixStep(names, k);
    var n := Count(names[..k], "wsgi");
    assert Count(names[..k + 1], "wsgi") == n + (if names[k] == "wsgi" then 1 else 0);
    assert r == Wrapped(root0, n);
  }

  /** The first `k + 1` names are the first `k` and name `k`. */
  lemma PrefixStep(names: seq<string>, k: nat)
    requires k < |names|
    ensures LibraryEvents(names[..k + 1]) == LibraryEvents(names[..k]) + NameEvents(names[k])
    ensures Count(names[..k + 1], "wsgi") == Count(names[..k], "wsgi") + (if names[k] == "wsgi" then 1 else 0)
  {
    assert names[..k + 1] == names[..k] + [names[k]];
    LibraryEventsAppend(names[..k], [names[k]]);
    LibraryEventsSingle(names[k]);
    CountAppend(names[..k], [names[k]], "wsgi");
  }
}
