/** The OpenTelemetry plugin's builder: it builds the resource that
    describes the service, reads the `opentelemetry` section of the
    application's configuration file, and builds the meter and tracer
    providers, registering each with the OpenTelemetry API. The SDK objects
    are represented by the arguments they are created with, and the API's
    process-wide registrations by the list of registration calls made. */
module OpenTelemetryPlugin {
  import opened Wrappers
  import opened YamlReader
  import opened Configs

  /** The section of the application file the plugin reads. */
  const OpenTelemetryKey: string := "opentelemetry"

  /** The paths appended to the collector endpoint for each signal. */
  const MetricsPath: string := "v1/metrics"
  const TracesPath: string := "v1/traces"

  /** The application configuration fields the resource is built from. */
  datatype AppConfig = AppConfig(environment: string, serviceName: string, serviceNamespace: string, version: string)

  /** `Resource(attributes=…)`: the deployment environment, service name,
      namespace and version attributes. */
  datatype Resource = Resource(deploymentEnvironment: string, serviceName: string,
                               serviceNamespace: string, serviceVersion: string)

  datatype MeterConfig = MeterConfig(readerIntervalMillis: int, readerTimeoutMillis: int)

  datatype TracerConfig = TracerConfig(maxQueueSize: int, maxExportBatchSize: int,
                                       scheduleDelayMillis: int, exportTimeoutMillis: int)

  /** The configuration fields the builder reads. */
  datatype OtelConfig = OtelConfig(activate: bool, endpoint: string, timeout: int,
                                   meterConfig: Option<MeterConfig>, tracerConfig: Option<TracerConfig>)

  /** An OTLP/HTTP exporter, for metrics or spans. */
  datatype Exporter = Exporter(endpoint: string, timeout: int)

  /** `PeriodicExportingMetricReader` */
  datatype MetricReader = MetricReader(exporter: Exporter, exportIntervalMillis: int, exportTimeoutMillis: int)

  /** `MeterProvider(resource=…, metric_readers=…, shutdown_on_exit=True, views=[])` */
  datatype MeterProvider = MeterProvider(resource: Resource, readers: seq<MetricReader>, shutdownOnExit: bool)

  /** `BatchSpanProcessor` */
  datatype SpanProcessor = BatchSpanProcessor(exporter: Exporter, maxQueueSize: int, maxExportBatchSize: int,
                                              scheduleDelayMillis: int, exportTimeoutMillis: int)

  /** `TracerProvider(resource=…, active_span_processor=…, shutdown_on_exit=True)`;
      the active processor, when there is one, is a synchronous multi-span
      processor holding the listed processors. */
  datatype TracerProvider = TracerProvider(resource: Resource, activeSpanProcessor: Option<seq<SpanProcessor>>,
                                           shutdownOnExit: bool)

  /** A call that registers something with the OpenTelemetry API. */
  datatype Registration =
    | MeterProviderSet(meterProvider: MeterProvider)
    | TracerProviderSet(tracerProvider: TracerProvider)
    | B3PropagatorSet

  /** The builder's failures. All but the last are
      `OpenTelemetryPluginConfigError`s, told apart here by their message;
      the reader's errors that the builder does not catch escape as they
      are. */
  datatype OtelError =
    | PackageNameUnset
    | ConfigUnreadable
    | ConfigInvalid
    | ResourceMissing
    | ConfigMissing
    | MeterConfigMissing
    | TracerConfigMissing
    | Uncaught(error: ReadError)

  predicate IsOpenTelemetryPluginConfigError(e: OtelError)
  {
    !e.Uncaught?
  }

  /** `build_resource`'s product. */
  function ResourceOf(app: AppConfig): Resource
  {
    Resource(app.environment, app.serviceName, app.serviceNamespace, app.version)
  }

  /** `build_config`'s outcome: the package name is checked before anything
      is read; the read and the construction fail as the configuration
      builder does, under the plugin's own error. */
  function OtelConfigFrom(lookup: FileLookup, packageName: string,
                          construct: map<string, Yaml> -> Option<OtelConfig>, env: Environment)
    : (r: Result<OtelConfig, OtelError>)
    requires EnvDollarFree(env)
    ensures packageName == "" ==> r == Failure(PackageNameUnset)
    ensures packageName != "" ==>
              var read := ReadInPackage(lookup(packageName, ApplicationFile), OpenTelemetryKey, env);
              && (r == Failure(ConfigUnreadable) <==> read == Failure(UnableToReadConfigFile))
              && (r == Failure(ConfigInvalid) <==> read.Success? && construct(read.value).None?)
              && (r.Success? <==> read.Success? && construct(read.value).Some?)
              && (r.Success? ==> Some(r.value) == construct(read.value))
              && (r.Failure? && r.error.Uncaught? <==> read.Failure? && read.error.Escaped?)
              && (read.Failure? && read.error.Escaped? ==> r == Failure(Uncaught(read.error.error)))
  {
    if packageName == "" then Failure(PackageNameUnset)
    else
      match BuildConfigFromFileInPackage(lookup, packageName, ApplicationFile, construct, OpenTelemetryKey, env)
      case Success(config) => Success(config)
      case Failure(UnableToReadConfigFile) => Failure(ConfigUnreadable)
      case Failure(ValueErrorConfig) => Failure(ConfigInvalid)
      case Failure(Escaped(e)) => Failure(Uncaught(e))
  }
  /** Every failure of reading the configuration is an `OpenTelemetryPluginConfigError`,
      the missing package name included, except a reader error that
      escapes uncaught. */
  lemma OtelErrorKinds(lookup: FileLookup, packageName: string,
                  construct: map<string, Yaml> -> Option<OtelConfig>, env: Environment)
    requires EnvDollarFree(env)
    ensures var r := OtelConfigFrom(lookup, packageName, construct, env);
            var source := lookup(packageName, ApplicationFile);
            r.Failure? ==>
              (IsOpenTelemetryPluginConfigError(r.error) <==>
               !(packageName != "" && source.Located? &&
                 Read(source.file, Some(OpenTelemetryKey), true, env).Failure? &&
                 !Read(source.file, Some(OpenTelemetryKey), true, env).error.UnableToReadYamlFile?))
  {
    if packageName != "" {
      ConfigErrorKinds(lookup, packageName, ApplicationFile, construct, OpenTelemetryKey, env);
    }
  }


  /** The guards both providers share, in their order: the resource, then
      the configuration, then the signal's own configuration when export is
      activated. */
  function ProviderGuard<S>(resource: Option<Resource>, config: Option<OtelConfig>, signal: Option<S>,
                            missing: OtelError): Outcome<OtelError>
  {
    if resource.None? then Fail(ResourceMissing)
    else if config.None? then Fail(ConfigMissing)
    else if config.value.activate && signal.None? then Fail(missing)
    else Pass
  }

  /** `build_meter_provider`'s outcome: no reader unless export is
      activated, and then exactly one, exporting to the collector's metrics
      path with the configured timeout and the meter configuration's
      interval and timeout. */
  function MeterProviderOf(resource: Option<Resource>, config: Option<OtelConfig>): (r: Result<MeterProvider, OtelError>)
    ensures resource.None? ==> r == Failure(ResourceMissing)
    ensures resource.Some? && config.None? ==> r == Failure(ConfigMissing)
    ensures r.Success? <==> resource.Some? && config.Some? && (config.value.activate ==> config.value.meterConfig.Some?)
    ensures r.Failure? && resource.Some? && config.Some? ==> r.error == MeterConfigMissing
    ensures r.Success? ==> r.value.resource == resource.value && r.value.shutdownOnExit
    ensures r.Success? ==> |r.value.readers| == if config.value.activate then 1 else 0
    ensures r.Success? && config.value.activate ==>
              var reader := r.value.readers[0];
              && reader.exporter == Exporter(config.value.endpoint + MetricsPath, config.value.timeout)
              && reader.exportIntervalMillis == config.value.meterConfig.value.readerIntervalMillis
              && reader.exportTimeoutMillis == config.value.meterConfig.value.readerTimeoutMillis
  {
    match ProviderGuard(resource, config, if config.Some? then config.value.meterConfig else None, MeterConfigMissing)
    case Fail(e) => Failure(e)
    case Pass =>
      var readers :=
        if config.value.activate then
          var meter := config.value.meterConfig.value;
          [MetricReader(Exporter(config.value.endpoint + MetricsPath, config.value.timeout),
                        meter.readerIntervalMillis, meter.readerTimeoutMillis)]
        else [];
      Success(MeterProvider(resource.value, readers, true))
  }

  /** `build_tracer_provider`'s outcome: no active span processor unless
      export is activated, and then one batch processor, exporting to the
      collector's traces path with the configured timeout and the tracer
      configuration's four batch parameters. */
  function TracerProviderOf(resource: Option<Resource>, config: Option<OtelConfig>): (r: Result<TracerProvider, OtelError>)
    ensures resource.None? ==> r == Failure(ResourceMissing)
    ensures resource.Some? && config.None? ==> r == Failure(ConfigMissing)
    ensures r.Success? <==> resource.Some? && config.Some? && (config.value.activate ==> config.value.tracerConfig.Some?)
    ensures r.Failure? && resource.Some? && config.Some? ==> r.error == TracerConfigMissing
    ensures r.Success? ==> r.value.resource == resource.value && r.value.shutdownOnExit
    ensures r.Success? ==> (r.value.activeSpanProcessor.Some? <==> config.value.activate)
    ensures r.Success? && config.value.activate ==>
              var tracer := config.value.tracerConfig.value;
              r.value.activeSpanProcessor.value ==
                [BatchSpanProcessor(Exporter(config.value.endpoint + TracesPath, config.value.timeout),
                                    tracer.maxQueueSize, tracer.maxExportBatchSize,
                                    tracer.scheduleDelayMillis, tracer.exportTimeoutMillis)]
  {
    match ProviderGuard(resource, config, if config.Some? then config.value.tracerConfig else None, TracerConfigMissing)
    case Fail(e) => Failure(e)
    case Pass =>
      var processor :=
        if config.value.activate then
          var tracer := config.value.tracerConfig.value;
          Some([BatchSpanProcessor(Exporter(config.value.endpoint + TracesPath, config.value.timeout),
                                   tracer.maxQueueSize, tracer.maxExportBatchSize,
                                   tracer.scheduleDelayMillis, tracer.exportTimeoutMillis)])
        else None;
      Success(TracerProvider(resource.value, processor, true))
  }

  /** The registrations `build_tracer_provider` makes: the B3 propagator
      when export is activated, then the tracer provider. */
  function TracerRegistrations(config: OtelConfig, provider: TracerProvider): seq<Registration>
  {
    (if config.activate then [B3PropagatorSet] else []) + [TracerProviderSet(provider)]
  }

  /** The metrics and traces exporters of one configuration send to two
      different endpoints under the configured one. */
  lemma {:induction false} ExportEndpointsDiffer(endpoint: string)
    ensures endpoint <= endpoint + MetricsPath && endpoint <= endpoint + TracesPath
    ensures endpoint + MetricsPath != endpoint + TracesPath
  {
    assert (endpoint + MetricsPath)[|endpoint| + 3] == 'm';
    assert (endpoint + TracesPath)[|endpoint| + 3] == 't';
  }

  /** With export off, both providers build from any configuration and
      export nothing, whatever the signal configurations hold. */
  lemma DeactivatedExportsNothing(resource: Resource, config: OtelConfig)
    requires !config.activate
    ensures MeterProviderOf(Some(resource), Some(config)) == Success(MeterProvider(resource, [], true))
    ensures TracerProviderOf(Some(resource), Some(config)) == Success(TracerProvider(resource, None, true))
  {
  }

  /** With export on, each provider needs exactly its own signal's
      configuration. */
  lemma ActivatedNeedsOwnSignal(resource: Resource, config: OtelConfig)
    requires config.activate
    ensures MeterProviderOf(Some(resource), Some(config)).Success? <==> config.meterConfig.Some?
    ensures TracerProviderOf(Some(resource), Some(config)).Success? <==> config.tracerConfig.Some?
  {
  }

  /** The API's process-wide state: every registration made, in order. */
  class OtelGlobals {
    var registrations: seq<Registration>

    constructor()
      ensures registrations == []
    {
      registrations := [];
    }
  }

  /** `OpenTelemetryPluginBuilder`: the four optional products. */
  class OpenTelemetryPluginBuilder {
    const app: AppConfig
    const packageName: string
    const globals: OtelGlobals
    var resource: Option<Resource>
    var config: Option<OtelConfig>
    var meterProvider: Option<MeterProvider>
    var tracerProvider: Option<TracerProvider>

    constructor(app: AppConfig, packageName: string, globals: OtelGlobals)
      ensures this.app == app && this.packageName == packageName && this.globals == globals
      ensures resource == None && config == None && meterProvider == None && tracerProvider == None
    {
      this.app := app;
      this.packageName := packageName;
      this.globals := globals;
      resource, config, meterProvider, tracerProvider := None, None, None, None;
    }

    /** `build_resource`: never fails. */
    method BuildResource()
      modifies this
      ensures resource == Some(ResourceOf(app))
      ensures config == old(config) && meterProvider == old(meterProvider) && tracerProvider == old(tracerProvider)
    {
      resource := Some(Resource(app.environment, app.serviceName, app.serviceNamespace, app.version));
    }

    /** `build_config`: on failure the stored configuration is kept. */
    method BuildConfig(lookup: FileLookup, construct: map<string, Yaml> -> Option<OtelConfig>, env: Environment)
      returns (r: Outcome<OtelError>)
      requires EnvDollarFree(env)
      modifies this
      ensures var built := OtelConfigFrom(lookup, packageName, construct, env);
              && (built.Success? ==> r == Pass && config == Some(built.value))
              && (built.Failure? ==> r == Fail(built.error) && config == old(config))
      ensures resource == old(resource) && meterProvider == old(meterProvider) && tracerProvider == old(tracerProvider)
    {
      if packageName == "" {
        return Fail(PackageNameUnset);
      }
      var content := ReadInPackage(lookup(packageName, ApplicationFile), OpenTelemetryKey, env);
      if content.Failure? {
        return Fail(if content.error == UnableToReadConfigFile then ConfigUnreadable else Uncaught(content.error.error));
      }
      var built := construct(content.value);
      if built.None? {
        return Fail(ConfigInvalid);
      }
      config := built;
      r := Pass;
    }

    /** `build_meter_provider`: on success the provider is stored and
        registered; on failure nothing changes. */
    method BuildMeterProvider() returns (r: Outcome<OtelError>)
      modifies this, globals
      ensures var built := MeterProviderOf(old(resource), old(config));
              && (built.Success? ==>
                    r == Pass && meterProvider == Some(built.value) &&
                    globals.registrations == old(globals.registrations) + [MeterProviderSet(built.value)])
              && (built.Failure? ==>
                    r == Fail(built.error) && meterProvider == old(meterProvider) &&
                    globals.registrations == old(globals.registrations))
      ensures resource == old(resource) && config == old(config) && tracerProvider == old(tracerProvider)
    {
      if resource.None? {
        return Fail(ResourceMissing);
      }
      if config.None? {
        return Fail(ConfigMissing);
      }
      var readers: seq<MetricReader> := [];
      if config.value.activate {
        if config.value.meterConfig.None? {
          return Fail(MeterConfigMissing);
        }
        var exporter := Exporter(config.value.endpoint + MetricsPath, config.value.timeout);
        var meter := config.value.meterConfig.value;
        var reader := MetricReader(exporter, meter.readerIntervalMillis, meter.readerTimeoutMillis);
        readers := readers + [reader];
        assert readers == [reader];
      }
      var provider := MeterProvider(resource.value, readers, true);
      meterProvider := Some(provider);
      globals.registrations := globals.registrations + [MeterProviderSet(provider)];
      r := Pass;
    }

    /** `build_tracer_provider`: on success the provider is stored and
        registered, after the B3 propagator when export is activated; on
        failure nothing changes. */
    method BuildTracerProvider() returns (r: Outcome<OtelError>)
      modifies this, globals
      ensures var built := TracerProviderOf(old(resource), old(config));
              && (built.Success? ==>
                    r == Pass && tracerProvider == Some(built.value) &&
                    globals.registrations == old(globals.registrations) + TracerRegistrations(old(config).value, built.value))
              && (built.Failure? ==>
                    r == Fail(built.error) && tracerProvider == old(tracerProvider) &&
                    globals.registrations == old(globals.registrations))
      ensures resource == old(resource) && config == old(config) && meterProvider == old(meterProvider)
    {
      if resource.None? {
        return Fail(ResourceMissing);
      }
      if config.None? {
        return Fail(ConfigMissing);
      }
      var active: Option<seq<SpanProcessor>> := None;
      if config.value.activate {
        if config.value.tracerConfig.None? {
          return Fail(TracerConfigMissing);
        }
        var exporter := Exporter(config.value.endpoint + TracesPath, config.value.timeout);
        var tracer := config.value.tracerConfig.value;
        var processor := BatchSpanProcessor(exporter, tracer.maxQueueSize, tracer.maxExportBatchSize,
                                            tracer.scheduleDelayMillis, tracer.exportTimeoutMillis);
        active := Some([processor]);
        globals.registrations := globals.registrations + [B3PropagatorSet];
      }
      var provider := TracerProvider(resource.value, active, true);
      tracerProvider := Some(provider);
      globals.registrations := globals.registrations + [TracerProviderSet(provider)];
      r := Pass;
    }

    /** `build_all`: resource, configuration, meter provider, tracer
        provider, stopping at the first failure. */
    method BuildAll(lookup: FileLookup, construct: map<string, Yaml> -> Option<OtelConfig>, env: Environment)
      returns (r: Outcome<OtelError>)
      requires EnvDollarFree(env)
      modifies this, globals
      ensures resource == Some(ResourceOf(app))
      ensures var built := OtelConfigFrom(lookup, packageName, construct, env);
              built.Failure? ==>
                && r == Fail(built.error) && config == old(config)
                && meterProvider == old(meterProvider) && tracerProvider == old(tracerProvider)
                && globals.registrations == old(globals.registrations)
      ensures var built := OtelConfigFrom(lookup, packageName, construct, env);
              built.Success? ==>
                var meter := MeterProviderOf(Some(ResourceOf(app)), Some(built.value));
                meter.Failure? ==>
                  && r == Fail(meter.error) && config == Some(built.value)
                  && meterProvider == old(meterProvider) && tracerProvider == old(tracerProvider)
                  && globals.registrations == old(globals.registrations)
      ensures var built := OtelConfigFrom(lookup, packageName, construct, env);
              built.Success? ==>
                var meter := MeterProviderOf(Some(ResourceOf(app)), Some(built.value));
                var tracer := TracerProviderOf(Some(ResourceOf(app)), Some(built.value));
                meter.Success? ==>
                && config == Some(built.value) && meterProvider == Some(meter.value)
                && (tracer.Failure? ==>
                      r == Fail(tracer.error) && tracerProvider == old(tracerProvider) &&
                      globals.registrations == old(globals.registrations) + [MeterProviderSet(meter.value)])
                && (tracer.Success? ==>
                      r == Pass && tracerProvider == Some(tracer.value) &&
                      globals.registrations == old(globals.registrations) + [MeterProviderSet(meter.value)] +
                                               TracerRegistrations(built.value, tracer.value))
    {
      BuildResource();
      r := BuildConfig(lookup, construct, env);
      if r.Fail? {
        return;
      }
      r := BuildMeterProvider();
      if r.Fail? {
        return;
      }
      r := BuildTracerProvider();
    }
  }
}
