/** The decisions of the telemetry bootstrap: `post_load`, which picks how to
    patch the server from its concurrency mode, and the step sequence of the
    patched `WorkerHTTP.run` / `WorkerCron.run`, gated by environment flags. */
module OtelBootstrap {
  import opened PyStrings
  import opened OtelSdk
  import opened OtelLibraries

  const LogsFlag: string := "ODOO_INSTRUMENT_LOGS"
  const MetricsFlag: string := "ODOO_INSTRUMENT_METRICS"
  const LibrariesFlag: string := "ODOO_INSTRUMENT_LIBRARIES"

  /** `if os.environ.get(name):` — the variable is present and not the empty string. */
  predicate FlagSet(env: map<string, string>, name: string)
  {
    name in env && env[name] != ""
  }

  // ---------------------------------------------------------------------------
  // post_load

  /** `__name__` of the add-on package. */
  const ModulePath: string := "odoo.addons.monitoring_otel"

  /** `__name__.split(".")[-1]`: the name `post_load` looks up. */
  function ModuleName(): string
  {
    var parts := Split(ModulePath, '.');
    parts[|parts| - 1]
  }

  /** The segments of the package path hold no dot. */
  lemma PathSegmentsLackDot()
    ensures '.' !in "odoo" && '.' !in "addons" && '.' !in "monitoring_otel"
  {
  }

  /** The last segment of the package path is the add-on's name. */
  lemma ModuleNameIsMonitoringOtel()
    ensures ModuleName() == "monitoring_otel"
  {
    var a, b, c := "odoo", "addons", "monitoring_otel";
    PathSegmentsLackDot();
    assert ModulePath == a + ['.'] + (b + ['.'] + c);
    SplitAtSeparator(a, b + ['.'] + c, '.');
    SplitAtSeparator(b, c, '.');
    SplitWithoutSeparator(c, '.');
  }

  /** What `post_load` reads: `odoo.conf.server_wide_modules`, `odoo.evented`,
      `odoo.tools.config["workers"]`, and for the gevent branch the environment and
      process identity of the resource. */
  datatype Host = Host(serverWideModules: seq<string>, evented: bool, workers: int,
                       env: map<string, string>, id: Identity)

  const NotServerWideMessage: string := "Module not loaded as server-wide, aborting"
  const ThreadedMessage: string := "Threaded mode unsupported"
  const DeploymentInfoGauge: string := "odoo.deployment_info"

  /** The gevent branch: a metrics provider and one observable presence gauge. */
  function GeventEvents(resource: Resource): seq<Event>
  {
    [SetMeterProvider(resource), GetMeter(MeterName), CreateObservableGauge(DeploymentInfoGauge)]
  }

  /** The prefork branch: both worker classes get the patched `run`. */
  const PreforkEvents: seq<Event> := [PatchRun(HttpWorker), PatchRun(CronWorker)]

  /** The add-on is listed in `odoo.conf.server_wide_modules`. */
  predicate LoadedServerWide(h: Host)
  {
    "monitoring_otel" in h.serverWideModules
  }

  /** The four ways `post_load` can go. */
  datatype Mode = NotServerWide | Evented | Prefork | Threaded

  /** `post_load`'s decision: nothing unless the add-on is loaded server-wide; then
      evented (gevent) mode wins over a worker count, a non-zero worker count means
      prefork, and the threaded server (no workers) is unsupported. */
  function PostLoadMode(h: Host): (m: Mode)
    ensures m == NotServerWide <==> !LoadedServerWide(h)
    ensures m == Evented <==> LoadedServerWide(h) && h.evented
    ensures m == Prefork <==> LoadedServerWide(h) && !h.evented && h.workers != 0
    ensures m == Threaded <==> LoadedServerWide(h) && !h.evented && h.workers == 0
  {
    ModuleNameIsMonitoringOtel();
    if ModuleName() !in h.serverWideModules then NotServerWide
    else if h.evented then Evented
    else if h.workers != 0 then Prefork
    else Threaded
  }

  /** The events of `post_load`. */
  function PostLoad(h: Host): seq<Event>
  {
    match PostLoadMode(h)
    case NotServerWide => [LogError(NotServerWideMessage)]
    case Evented => GeventEvents(CreateResource(h.id, h.env))
    case Prefork => PreforkEvents
    case Threaded => [LogWarning(ThreadedMessage)]
  }

  /** The events of each branch, by the inputs that select it: one error line when
      the add-on is not server-wide; the metrics provider and the deployment gauge in
      evented mode, whatever the worker count; both worker patches in prefork mode;
      one warning line for the threaded server. */
  lemma PostLoadEffects(h: Host)
    ensures !LoadedServerWide(h) ==> PostLoad(h) == [LogError(NotServerWideMessage)]
    ensures LoadedServerWide(h) && h.evented ==>
      PostLoad(h) == [SetMeterProvider(CreateResource(h.id, h.env)), GetMeter(MeterName),
                      CreateObservableGauge(DeploymentInfoGauge)]
    ensures LoadedServerWide(h) && !h.evented && h.workers != 0 ==>
      PostLoad(h) == [PatchRun(HttpWorker), PatchRun(CronWorker)]
    ensures LoadedServerWide(h) && !h.evented && h.workers == 0 ==> PostLoad(h) == [LogWarning(ThreadedMessage)]
  {
  }

  // ---------------------------------------------------------------------------
  // The patched worker run

  /** One call made by the patched `run`. */
  datatype Step =
    | ConfigureStep                      // otel_configure_providers()
    | LogsStep                           // otel_instrument_logs()
    | HttpMetricsStep                    // otel_instrument_http_metrics()
    | CronMetricsStep                    // otel_instrument_cron_metrics(), a no-op
    | LibrariesStep(libraries: string)   // otel_instrument_libraries(os.environ[...])
    | WorkerRunStep                      // Worker.run(self)

  /** Position of a step in the fixed order of the source. */
  function Rank(s: Step): nat
  {
    match s
    case ConfigureStep => 0
    case LogsStep => 1
    case HttpMetricsStep => 2
    case CronMetricsStep => 2
    case LibrariesStep(_) => 3
    case WorkerRunStep => 4
  }

  /** `os.environ["ODOO_INSTRUMENT_LIBRARIES"]`, read only once the flag is known to be set. */
  function LibrariesValue(env: map<string, string>): string
  {
    if LibrariesFlag in env then env[LibrariesFlag] else ""
  }

  /** `s` when its flag is set, nothing otherwise. */
  function Gated(flag: bool, s: Step): (r: seq<Step>)
    ensures forall x :: x in r <==> flag && x == s
  {
    if flag then [s] else []
  }

  /** The calls between the provider configuration and `Worker.run`, each gated by
      its flag, with the metrics call chosen by the worker class. */
  function FlagSteps(kind: WorkerKind, env: map<string, string>): (r: seq<Step>)
    ensures forall i :: 0 <= i < |r| ==> 1 <= Rank(r[i]) <= 3
    ensures forall i, j :: 0 <= i < j < |r| ==> Rank(r[i]) < Rank(r[j])
  {
    Gated(FlagSet(env, LogsFlag), LogsStep)
    + Gated(FlagSet(env, MetricsFlag), if kind == HttpWorker then HttpMetricsStep else CronMetricsStep)
    + Gated(FlagSet(env, LibrariesFlag), LibrariesStep(LibrariesValue(env)))
  }

  /** The steps of `http_run` (HTTP worker) or `cron_run` (cron worker), in order:
      the providers first, `Worker.run` last, the instrumentations in between. */
  function RunSteps(kind: WorkerKind, env: map<string, string>): (r: seq<Step>)
    ensures |r| >= 2 && r[0] == ConfigureStep && r[|r| - 1] == WorkerRunStep
    ensures forall i, j :: 0 <= i < j < |r| ==> Rank(r[i]) < Rank(r[j])
  {
    [ConfigureStep] + FlagSteps(kind, env) + [WorkerRunStep]
  }

  /** The logs instrumentation runs exactly when its flag is set. */
  lemma LogsStepGate(kind: WorkerKind, env: map<string, string>)
    ensures LogsStep in RunSteps(kind, env) <==> FlagSet(env, LogsFlag)
  {
    RunStepsParts(kind, env);
  }

  /** The HTTP metrics instrumentation runs exactly in an HTTP worker whose metrics flag is set. */
  lemma HttpMetricsStepGate(kind: WorkerKind, env: map<string, string>)
    ensures HttpMetricsStep in RunSteps(kind, env) <==> kind == HttpWorker && FlagSet(env, MetricsFlag)
  {
    RunStepsParts(kind, env);
  }

  /** The cron metrics hook runs exactly in a cron worker whose metrics flag is set. */
  lemma CronMetricsStepGate(kind: WorkerKind, env: map<string, string>)
    ensures CronMetricsStep in RunSteps(kind, env) <==> kind == CronWorker && FlagSet(env, MetricsFlag)
  {
    RunStepsParts(kind, env);
  }

  /** The libraries instrumentation runs exactly when its flag is set, on the flag's value. */
  lemma LibrariesStepGate(kind: WorkerKind, env: map<string, string>, l: string)
    ensures LibrariesStep(l) in RunSteps(kind, env) <==> FlagSet(env, LibrariesFlag) && l == env[LibrariesFlag]
  {
    RunStepsParts(kind, env);
  }

  /** What a run's step list holds: the two fixed steps and the three gated parts. */
  lemma RunStepsParts(kind: WorkerKind, env: map<string, string>)
    ensures forall s :: s in RunSteps(kind, env) <==>
      || s == ConfigureStep
      || s in Gated(FlagSet(env, LogsFlag), LogsStep)
      || s in Gated(FlagSet(env, MetricsFlag), if kind == HttpWorker then HttpMetricsStep else CronMetricsStep)
      || s in Gated(FlagSet(env, LibrariesFlag), LibrariesStep(LibrariesValue(env)))
      || s == WorkerRunStep
  {
    var logs := Gated(FlagSet(env, LogsFlag), LogsStep);
    var metrics := Gated(FlagSet(env, MetricsFlag), if kind == HttpWorker then HttpMetricsStep else CronMetricsStep);
    var libraries := Gated(FlagSet(env, LibrariesFlag), LibrariesStep(LibrariesValue(env)));
    assert RunSteps(kind, env) == [ConfigureStep] + (logs + metrics + libraries) + [WorkerRunStep];
  }

  /** With no flag set, or each set to "", a run configures the providers and runs the worker. */
  lemma InertBaseline(kind: WorkerKind, env: map<string, string>)
    requires !FlagSet(env, LogsFlag) && !FlagSet(env, MetricsFlag) && !FlagSet(env, LibrariesFlag)
    ensures RunSteps(kind, env) == [ConfigureStep, WorkerRunStep]
  {
  }

  /** The recorded events of one step. */
  function StepEvents(s: Step, kind: WorkerKind, resource: Resource): seq<Event>
  {
    match s
    case ConfigureStep => ProviderEvents(resource)
    case LogsStep => []
    case HttpMetricsStep => HttpMetricsEvents()
    case CronMetricsStep => []
    case LibrariesStep(l) => LibraryEvents(Split(l, ','))
    case WorkerRunStep => [WorkerRun(kind)]
  }

  /** The recorded events of a sequence of steps. */
  function StepsTrace(steps: seq<Step>, kind: WorkerKind, resource: Resource): seq<Event>
  {
    if steps == [] then []
    else StepEvents(steps[0], kind, resource) + StepsTrace(steps[1..], kind, resource)
  }

  /** The events of consecutive step sequences are consecutive. */
  lemma {:induction false} StepsTraceAppend(a: seq<Step>, b: seq<Step>, kind: WorkerKind, resource: Resource)
    ensures StepsTrace(a + b, kind, resource) == StepsTrace(a, kind, resource) + StepsTrace(b, kind, resource)
  {
    if a == [] {
      assert a + b == b;
    } else {
      assert (a + b)[1..] == a[1..] + b;
      StepsTraceAppend(a[1..], b, kind, resource);
    }
  }

  /** Only the final step runs the worker. */
  lemma StepRunsNoWorker(s: Step, kind: WorkerKind, resource: Resource)
    requires s != WorkerRunStep
    ensures Count(StepEvents(s, kind, resource), WorkerRun(kind)) == 0
  {
    match s
    case ConfigureStep =>
    case LogsStep =>
    case HttpMetricsStep =>
    case CronMetricsStep =>
    case LibrariesStep(l) => NoWorkerRunInLibraries(Split(l, ','), kind);
  }

  /** A sequence of steps without `Worker.run` records no call of it. */
  lemma {:induction false} NoWorkerRunBefore(steps: seq<Step>, kind: WorkerKind, resource: Resource)
    requires forall k :: 0 <= k < |steps| ==> steps[k] != WorkerRunStep
    ensures Count(StepsTrace(steps, kind, resource), WorkerRun(kind)) == 0
    decreases |steps|
  {
    if steps != [] {
      NoWorkerRunBefore(steps[1..], kind, resource);
      StepRunsNoWorker(steps[0], kind, resource);
      CountAppend(StepEvents(steps[0], kind, resource), StepsTrace(steps[1..], kind, resource), WorkerRun(kind));
    }
  }

  /** Instrumenting libraries never runs the worker. */
  lemma {:induction false} NoWorkerRunInLibraries(names: seq<string>, kind: WorkerKind)
    ensures Count(LibraryEvents(names), WorkerRun(kind)) == 0
    decreases |names|
  {
    if names != [] {
      var first := names[0];
      NoWorkerRunInLibraries(names[1..], kind);
      CountAppend(NameEvents(first), LibraryEvents(names[1..]), WorkerRun(kind));
      if first in Registry {
        CountAppend([LogInfo(InstrumentingMessage(first))],
                    if Registry[first] == Psycopg2 then [InstrumentPsycopg2] else [], WorkerRun(kind));
      }
    }
  }

  /** Framing a sequence of steps by the provider configuration and `Worker.run`
      frames its events by theirs. */
  lemma FramedTrace(middle: seq<Step>, kind: WorkerKind, resource: Resource)
    ensures StepsTrace([ConfigureStep] + middle + [WorkerRunStep], kind, resource)
      == ProviderEvents(resource) + StepsTrace(middle, kind, resource) + [WorkerRun(kind)]
  {
    StepsTraceAppend([ConfigureStep] + middle, [WorkerRunStep], kind, resource);
    StepsTraceAppend([ConfigureStep], middle, kind, resource);
    assert StepsTrace([ConfigureStep], kind, resource) == ProviderEvents(resource) + [];
    assert StepsTrace([WorkerRunStep], kind, resource) == [WorkerRun(kind)] + [];
  }

  /** A run's events begin with the three provider configurations and end with the
      one and only call of `Worker.run`. */
  lemma RunTraceShape(kind: WorkerKind, env: map<string, string>, resource: Resource)
    ensures var t := StepsTrace(RunSteps(kind, env), kind, resource);
      && |t| >= 4
      && t[..3] == ProviderEvents(resource)
      && t[|t| - 1] == WorkerRun(kind)
      && Count(t, WorkerRun(kind)) == 1
  {
    var providers, mid := ProviderEvents(resource), StepsTrace(FlagSteps(kind, env), kind, resource);
    FramedTrace(FlagSteps(kind, env), kind, resource);
    assert (providers + mid + [WorkerRun(kind)])[..3] == providers;
    NoWorkerRunBefore(FlagSteps(kind, env), kind, resource);
    StepRunsNoWorker(ConfigureStep, kind, resource);
    CountAppend(providers + mid, [WorkerRun(kind)], WorkerRun(kind));
    CountAppend(providers, mid, WorkerRun(kind));
    assert Count([WorkerRun(kind)], WorkerRun(kind)) == 1 + Count([], WorkerRun(kind));
  }
}
