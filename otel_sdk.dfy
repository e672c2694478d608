/** What the telemetry bootstrap asks of the world outside it. Each
    `set_*_provider` call, each meter or gauge creation and each instrumentor call
    into the OpenTelemetry SDK, each patch of an Odoo worker class and each line
    written to the module's logger is recorded as one `Event`; setting a gauge's
    value is not one. The resource is the attribute dict handed to `Resource.create`;
    the other SDK objects are modelled where they are used: gauge values in
    `OtelLogging.GaugeSet`, the WSGI middleware as `OtelLibraries.Application`, the
    custom log handler as an `OtelLogging.Handler`. The SDK's own behaviour is not
    modelled. */
module OtelSdk {

  /** The two worker classes whose `run` the prefork patch replaces. */
  datatype WorkerKind = HttpWorker | CronWorker

  /** A value in the resource attribute dict (`os.getpid()` is the only integer). */
  datatype AttrValue = StrAttr(s: string) | IntAttr(i: int)

  type Resource = map<string, AttrValue>

  /** Process and host facts read by `otel_create_resource`, as inputs:
      `os.uname().nodename`, `odoo.release.version`, `str(uuid4())`, `os.getpid()`. */
  datatype Identity = Identity(nodename: string, version: string, instanceId: string, pid: int)

  datatype Event =
    | SetLoggerProvider(resource: Resource)     // LoggerProvider, batch processor, OTLP log exporter
    | SetMeterProvider(resource: Resource)      // MeterProvider, periodic reader, OTLP metric exporter
    | SetTracerProvider(resource: Resource)     // TracerProvider, batch processor, OTLP span exporter
    | GetMeter(name: string)
    | CreateGauge(name: string)
    | CreateObservableGauge(name: string)
    | InstrumentPsycopg2                        // Psycopg2Instrumentor().instrument()
    | PatchRun(worker: WorkerKind)              // WorkerHTTP.run / WorkerCron.run rebound
    | WorkerRun(worker: WorkerKind)             // the original Worker.run(self)
    | LogError(message: string)
    | LogWarning(message: string)
    | LogInfo(message: string)

  const EnvironmentVar: string := "ODOO_ENVIRONMENT"
  const MeterName: string := "odoo"

  const ResourceKeys: set<string> := {"service.name", "service.namespace", "service.version",
                                      "service.instance.id", "deployment.environment", "worker"}

  /** The attribute dict of `otel_create_resource`. `os.environ.get(name, "unknown")` falls
      back only when the variable is absent: a variable set to "" stays "". */
  function CreateResource(id: Identity, env: map<string, string>): (r: Resource)
    ensures r.Keys == ResourceKeys
    ensures r["service.name"] == StrAttr("odoo")
    ensures r["worker"] == IntAttr(id.pid)
    ensures r["service.instance.id"] == StrAttr(id.instanceId)
  {
    map[
      "service.name" := StrAttr("odoo"),
      "service.namespace" := StrAttr(id.nodename),
      "service.version" := StrAttr(id.version),
      "service.instance.id" := StrAttr(id.instanceId),
      "deployment.environment" := StrAttr(if EnvironmentVar in env then env[EnvironmentVar] else "unknown"),
      "worker" := IntAttr(id.pid)
    ]
  }

  /** The deployment environment is the variable's value when it is set, even to "",
      and "unknown" only when it is absent. */
  lemma DeploymentEnvironmentDefault(id: Identity, env: map<string, string>)
    ensures EnvironmentVar !in env ==> CreateResource(id, env)["deployment.environment"] == StrAttr("unknown")
    ensures EnvironmentVar in env ==> CreateResource(id, env)["deployment.environment"] == StrAttr(env[EnvironmentVar])
  {
  }

  /** `otel_configure_providers`: logs, then metrics, then traces, all on one resource. */
  function ProviderEvents(resource: Resource): seq<Event>
  {
    [SetLoggerProvider(resource), SetMeterProvider(resource), SetTracerProvider(resource)]
  }

  /** Gauge names created by `otel_instrument_http_metrics`. */
  const QueryCountGauge: string := "odoo.query_count"
  const QueryTimeGauge: string := "odoo.query_time"
  const RemainingTimeGauge: string := "odoo.remaining_time"

  /** The SDK calls at the start of `otel_instrument_http_metrics`. */
  function HttpMetricsEvents(): seq<Event>
  {
    [GetMeter(MeterName), CreateGauge(QueryCountGauge), CreateGauge(QueryTimeGauge), CreateGauge(RemainingTimeGauge)]
  }
}
