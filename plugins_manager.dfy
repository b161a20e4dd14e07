/** The application plugin manager: it reads which plugins to activate
    from the package's `application.yaml`, resolves each named plugin in
    order, failing on the first that cannot be imported, does not conform
    to the plugin protocol or refuses its pre-conditions, and then runs the
    plugins' `on_load` and `on_startup` hooks in that order. Importing a
    module is a lookup in a registry; the hooks are recorded as calls. */
module PluginsManager {
  import opened Wrappers
  import opened YamlReader
  import opened Configs

  /** `PluginsEnum`: the plugin names the framework knows. */
  const KnownPlugins: set<string> := {"opentelemetry_plugin"}

  /** The section of the application file the activation list is read
      from. */
  const ActivationKey: string := "plugins"

  /** What importing a plugin's module gives: whether it has the members
      of the plugin protocol, what its pre-condition check answers, and
      whether its `on_load` and `on_startup` hooks raise. */
  datatype PluginModule = PluginModule(name: string, conforms: bool, preConditionsHold: bool,
                                       onLoadRaises: bool, onStartupRaises: bool)

  /** The modules `import_module` can load, by plugin name. */
  type Registry = map<string, PluginModule>

  /** A call the manager makes into a plugin module. */
  datatype Call =
    | PreConditionsCheck(plugin: PluginModule)
    | OnLoad(plugin: PluginModule)
    | OnStartup(plugin: PluginModule)

  /** The failures of the manager's constructor. All but the first and
      the last are `ApplicationPluginManagerException`. The first is a
      `ValueError`; the last is a reader error that neither the
      configuration builder nor the manager catches, escaping as it is. */
  datatype ManagerError =
    | PackageNameUnset
    | ActivationConfigUnreadable
    | ActivationConfigInvalid
    | PluginNotImportable(name: string)
    | PluginNotConforming(name: string)
    | PluginPreConditionsFailed(name: string)
    | ActivationConfigEscaped(error: ReadError)

  // ---------------------------------------------------------------------
  // The activation list
  // ---------------------------------------------------------------------

  /** Whether a YAML value is a list of known plugin names. */
  predicate IsPluginList(y: Yaml)
  {
    y.List? && forall i :: 0 <= i < |y.items| ==> y.items[i].Str? && y.items[i].s in KnownPlugins
  }

  /** `PluginsActivationList(**content)`: no key but `activate` is allowed,
      and `activate`, when present, is a list of known plugin names; it
      defaults to the empty list. */
  function ActivationListFrom(content: map<string, Yaml>): (r: Option<seq<string>>)
    ensures r.Some? <==> content.Keys <= {"activate"} && ("activate" in content ==> IsPluginList(content["activate"]))
    ensures r.Some? ==> forall i :: 0 <= i < |r.value| ==> r.value[i] in KnownPlugins
    ensures r.Some? && "activate" in content ==>
              |r.value| == |content["activate"].items| &&
              forall i :: 0 <= i < |r.value| ==> content["activate"].items[i] == Str(r.value[i])
    ensures r.Some? && "activate" !in content ==> r.value == []
  {
    if !(content.Keys <= {"activate"}) then None
    else if "activate" !in content then Some([])
    else
      var y := content["activate"];
      if IsPluginList(y) then Some(seq(|y.items|, i requires 0 <= i < |y.items| => y.items[i].s))
      else None
  }

  /** `_build_plugins_activation_list`: both configuration exceptions become
      manager exceptions. */
  function BuildPluginsActivationList(lookup: FileLookup, packageName: string, env: Environment)
    : (r: Result<seq<string>, ManagerError>)
    requires EnvDollarFree(env)
    ensures var c := BuildConfigFromFileInPackage(lookup, packageName, ApplicationFile, ActivationListFrom,
                                                  ActivationKey, env);
            && (r.Success? <==> c.Success?)
            && (r.Success? ==> r.value == c.value)
            && (r == Failure(ActivationConfigUnreadable) <==> c == Failure(UnableToReadConfigFile))
            && (r == Failure(ActivationConfigInvalid) <==> c == Failure(ValueErrorConfig))
            && (c.Failure? && c.error.Escaped? ==> r == Failure(ActivationConfigEscaped(c.error.error)))
  {
    match BuildConfigFromFileInPackage(lookup, packageName, ApplicationFile, ActivationListFrom, ActivationKey, env)
    case Success(names) => Success(names)
    case Failure(UnableToReadConfigFile) => Failure(ActivationConfigUnreadable)
    case Failure(ValueErrorConfig) => Failure(ActivationConfigInvalid)
    case Failure(Escaped(e)) => Failure(ActivationConfigEscaped(e))
  }

  // ---------------------------------------------------------------------
  // Resolving the plugins
  // ---------------------------------------------------------------------

  /** Whether the entry passes all three checks. */
  predicate Accepted(registry: Registry, name: string)
  {
    name in registry && registry[name].conforms && registry[name].preConditionsHold
  }

  /** The error for an entry that fails a check: the first check it fails. */
  function Rejection(registry: Registry, name: string): ManagerError
  {
    if name !in registry then PluginNotImportable(name)
    else if !registry[name].conforms then PluginNotConforming(name)
    else PluginPreConditionsFailed(name)
  }

  /** What `_check_pre_conditions` has done so far: the accepted modules,
      the calls made, and the error it raised, if any. */
  datatype Resolution = Resolution(plugins: seq<PluginModule>, calls: seq<Call>, failure: Option<ManagerError>)

  /** The pre-condition checks of a list of modules, in order. */
  function Checks(plugins: seq<PluginModule>): (r: seq<Call>)
    ensures |r| == |plugins| && forall i :: 0 <= i < |r| ==> r[i] == PreConditionsCheck(plugins[i])
  {
    seq(|plugins|, i requires 0 <= i < |plugins| => PreConditionsCheck(plugins[i]))
  }

  /** The two lifecycle hooks the manager runs over its plugins. */
  datatype Hook = Load | Startup

  /** Whether the module's hook raises when called. */
  predicate Raises(p: PluginModule, hook: Hook)
  {
    match hook
    case Load => p.onLoadRaises
    case Startup => p.onStartupRaises
  }

  function HookCall(p: PluginModule, hook: Hook): Call
  {
    match hook
    case Load => OnLoad(p)
    case Startup => OnStartup(p)
  }

  /** The hook called on the first `k` modules, in order. */
  function HookPrefix(plugins: seq<PluginModule>, hook: Hook, k: nat): (r: seq<Call>)
    requires k <= |plugins|
    ensures |r| == k && forall i :: 0 <= i < k ==> r[i] == HookCall(plugins[i], hook)
  {
    seq(k, i requires 0 <= i < k => HookCall(plugins[i], hook))
  }

  /** The first module at or after `from` whose hook raises, or the length
      of the list when none does. */
  function FirstRaising(plugins: seq<PluginModule>, hook: Hook, from: nat): (i: nat)
    requires from <= |plugins|
    ensures from <= i <= |plugins|
    ensures forall j :: from <= j < i ==> !Raises(plugins[j], hook)
    ensures i < |plugins| ==> Raises(plugins[i], hook)
    decreases |plugins| - from
  {
    if from == |plugins| || Raises(plugins[from], hook) then from else FirstRaising(plugins, hook, from + 1)
  }

  /** The calls of one run of a hook over the modules: each module in
      order, up to and including the first whose hook raises, which ends
      the run. */
  function HookCalls(plugins: seq<PluginModule>, hook: Hook): seq<Call>
  {
    var n := FirstRaising(plugins, hook, 0);
    HookPrefix(plugins, hook, if n < |plugins| then n + 1 else n)
  }

  /** The module whose hook ended the run by raising, if any. */
  function HookRaised(plugins: seq<PluginModule>, hook: Hook): Option<PluginModule>
  {
    var n := FirstRaising(plugins, hook, 0);
    if n < |plugins| then Some(plugins[n]) else None
  }

  /** When no hook raises, the hook is called once on every module, in
      order, and the run ends normally. */
  lemma HooksAllRun(plugins: seq<PluginModule>, hook: Hook)
    requires forall i :: 0 <= i < |plugins| ==> !Raises(plugins[i], hook)
    ensures HookRaised(plugins, hook) == None
    ensures |HookCalls(plugins, hook)| == |plugins|
    ensures forall i :: 0 <= i < |plugins| ==> HookCalls(plugins, hook)[i] == HookCall(plugins[i], hook)
  {
  }

  /** A hook that raises on module `k` after none has raised before it
      ends the run there: the modules after `k` are never called, and the
      error is module `k`'s. */
  lemma RaisingHookEndsRun(plugins: seq<PluginModule>, hook: Hook, k: nat)
    requires k < |plugins| && Raises(plugins[k], hook)
    requires forall i :: 0 <= i < k ==> !Raises(plugins[i], hook)
    ensures HookRaised(plugins, hook) == Some(plugins[k])
    ensures HookCalls(plugins, hook) == HookPrefix(plugins, hook, k + 1)
    ensures HookCalls(plugins, hook)[k] == HookCall(plugins[k], hook)
  {
  }

  /** One turn of the loop: import, check conformance, check
      pre-conditions, append. */
  function Admit(prev: Resolution, registry: Registry, name: string): Resolution
  {
    if name !in registry then Resolution(prev.plugins, prev.calls, Some(PluginNotImportable(name)))
    else
      var m := registry[name];
      if !m.conforms then Resolution(prev.plugins, prev.calls, Some(PluginNotConforming(name)))
      else if !m.preConditionsHold then
        Resolution(prev.plugins, prev.calls + [PreConditionsCheck(m)], Some(PluginPreConditionsFailed(name)))
      else Resolution(prev.plugins + [m], prev.calls + [PreConditionsCheck(m)], None)
  }

  /** What the loop over `names` must have done, stopped by the first
      error: the accepted modules are those of the entries before the first
      rejected one, in order and duplicates included; the error names that
      entry; the pre-condition check is called on exactly the modules that
      got that far. */
  predicate ResolvedAs(registry: Registry, names: seq<string>, r: Resolution)
  {
    && |r.plugins| <= |names|
    && (forall i :: 0 <= i < |r.plugins| ==> Accepted(registry, names[i]) && r.plugins[i] == registry[names[i]])
    && (r.failure.None? <==> forall i :: 0 <= i < |names| ==> Accepted(registry, names[i]))
    && (r.failure.None? ==> |r.plugins| == |names|)
    && (r.failure.Some? ==>
          |r.plugins| < |names| && !Accepted(registry, names[|r.plugins|]) &&
          r.failure.value == Rejection(registry, names[|r.plugins|]))
    && r.calls == Checks(r.plugins) +
                  if r.failure.Some? && r.failure.value.PluginPreConditionsFailed?
                  then [PreConditionsCheck(registry[names[|r.plugins|]])] else []
  }

  /** The loop over the activation list, stopped by the first error. */
  function Resolve(registry: Registry, names: seq<string>): Resolution
    decreases |names|
  {
    if |names| == 0 then Resolution([], [], None)
    else
      var prev := Resolve(registry, names[..|names| - 1]);
      if prev.failure.Some? then prev else Admit(prev, registry, names[|names| - 1])
  }

  /** Resolve does what the loop must have done. */
  lemma {:induction false} ResolveMeetsSpec(registry: Registry, names: seq<string>)
    ensures ResolvedAs(registry, names, Resolve(registry, names))
    decreases |names|
  {
    if |names| > 0 {
      var prefix := names[..|names| - 1];
      ResolveMeetsSpec(registry, prefix);
      var prev := Resolve(registry, prefix);
      if prev.failure.Some? {
        FailureCarriesOver(registry, names, prev);
      } else {
        AdmitExtends(registry, names, prev);
      }
    }
  }

  /** An error raised on the prefix is the error of the whole list. */
  lemma FailureCarriesOver(registry: Registry, names: seq<string>, prev: Resolution)
    requires |names| > 0 && ResolvedAs(registry, names[..|names| - 1], prev) && prev.failure.Some?
    ensures ResolvedAs(registry, names, prev)
  {
    var prefix := names[..|names| - 1];
    assert forall i :: 0 <= i < |prefix| ==> prefix[i] == names[i];
  }

  /** A prefix without error, followed by one more turn of the loop. */
  lemma AdmitExtends(registry: Registry, names: seq<string>, prev: Resolution)
    requires |names| > 0 && ResolvedAs(registry, names[..|names| - 1], prev) && prev.failure.None?
    ensures ResolvedAs(registry, names, Admit(prev, registry, names[|names| - 1]))
  {
    var prefix := names[..|names| - 1];
    var name := names[|names| - 1];
    assert forall i :: 0 <= i < |prefix| ==> prefix[i] == names[i];
    if Accepted(registry, name) {
      ChecksAppend(prev.plugins, registry[name]);
    }
  }

  lemma ChecksAppend(plugins: seq<PluginModule>, m: PluginModule)
    ensures Checks(plugins + [m]) == Checks(plugins) + [PreConditionsCheck(m)]
  {
  }

  /** The loop's turn on entry `i`, as Resolve takes it. */
  lemma ResolvePrefixStep(registry: Registry, names: seq<string>, i: nat)
    requires i < |names|
    ensures var prev := Resolve(registry, names[..i]);
            Resolve(registry, names[..i + 1]) ==
            if prev.failure.Some? then prev else Admit(prev, registry, names[i])
  {
    assert names[..i + 1][..i] == names[..i];
  }

  /** Fail fast: once entry `i` is rejected, the entries after it change
      nothing; they are never looked at. */
  lemma {:induction false} RejectionIsFinal(registry: Registry, names: seq<string>, i: nat)
    requires i < |names| && Resolve(registry, names[..i + 1]).failure.Some?
    ensures Resolve(registry, names) == Resolve(registry, names[..i + 1])
    decreases |names|
  {
    if |names| > i + 1 {
      var shorter := names[..|names| - 1];
      assert shorter[..i + 1] == names[..i + 1];
      RejectionIsFinal(registry, shorter, i);
    } else {
      assert names[..i + 1] == names;
    }
  }

  /** When every entry is accepted, the modules are the registry's entries
      for the names, one per name and in order. */
  lemma ResolveAllAccepted(registry: Registry, names: seq<string>)
    requires forall i :: 0 <= i < |names| ==> Accepted(registry, names[i])
    ensures Resolve(registry, names).failure.None?
    ensures |Resolve(registry, names).plugins| == |names|
    ensures forall i :: 0 <= i < |names| ==>
              Accepted(registry, names[i]) && Resolve(registry, names).plugins[i] == registry[names[i]]
  {
    ResolveMeetsSpec(registry, names);
  }

  // ---------------------------------------------------------------------
  // The manager
  // ---------------------------------------------------------------------

  /** What constructing a manager gives: the error it raises, or the
      resolution it keeps. The package name is checked before anything is
      read. */
  function Construct(packageName: string, lookup: FileLookup, env: Environment, registry: Registry)
    : (r: Result<Resolution, ManagerError>)
    requires EnvDollarFree(env)
    ensures packageName == "" ==> r == Failure(PackageNameUnset)
    ensures packageName != "" && BuildPluginsActivationList(lookup, packageName, env).Failure? ==>
              r == Failure(BuildPluginsActivationList(lookup, packageName, env).error)
    ensures r.Success? ==>
              packageName != "" && BuildPluginsActivationList(lookup, packageName, env).Success? &&
              r.value == Resolve(registry, BuildPluginsActivationList(lookup, packageName, env).value) &&
              r.value.failure.None?
    ensures packageName != "" && BuildPluginsActivationList(lookup, packageName, env).Success? ==>
              var res := Resolve(registry, BuildPluginsActivationList(lookup, packageName, env).value);
              (res.failure.Some? ==> r == Failure(res.failure.value)) &&
              (res.failure.None? ==> r == Success(res))
  {
    if packageName == "" then Failure(PackageNameUnset)
    else
      match BuildPluginsActivationList(lookup, packageName, env)
      case Failure(e) => Failure(e)
      case Success(names) =>
        var res := Resolve(registry, names);
        if res.failure.Some? then Failure(res.failure.value) else Success(res)
  }

  /** The first rejected entry of the activation list is the error the
      constructor raises, whatever follows it. */
  lemma ConstructFailsOnFirstRejected(packageName: string, lookup: FileLookup, env: Environment,
                                      registry: Registry, i: nat)
    requires EnvDollarFree(env) && packageName != ""
    requires BuildPluginsActivationList(lookup, packageName, env).Success?
    requires var names := BuildPluginsActivationList(lookup, packageName, env).value;
             i < |names| && !Accepted(registry, names[i]) &&
             forall j :: 0 <= j < i ==> Accepted(registry, names[j])
    ensures var names := BuildPluginsActivationList(lookup, packageName, env).value;
            Construct(packageName, lookup, env, registry) == Failure(Rejection(registry, names[i]))
  {
    var names := BuildPluginsActivationList(lookup, packageName, env).value;
    var res := Resolve(registry, names);
    ResolveMeetsSpec(registry, names);
    assert res.failure.Some?;
  }

  /** When every entry of the activation list is accepted, the constructor
      succeeds with one module per entry, in order. */
  lemma ConstructAllAccepted(packageName: string, lookup: FileLookup, env: Environment, registry: Registry)
    requires EnvDollarFree(env) && packageName != ""
    requires BuildPluginsActivationList(lookup, packageName, env).Success?
    requires var names := BuildPluginsActivationList(lookup, packageName, env).value;
             forall j :: 0 <= j < |names| ==> Accepted(registry, names[j])
    ensures var names := BuildPluginsActivationList(lookup, packageName, env).value;
            var r := Construct(packageName, lookup, env, registry);
            r.Success? && |r.value.plugins| == |names| &&
            forall j :: 0 <= j < |names| ==> r.value.plugins[j] == registry[names[j]]
  {
    ResolveAllAccepted(registry, BuildPluginsActivationList(lookup, packageName, env).value);
  }

  /** An activation section without `activate` gives a manager with no
      plugins, whose hooks then call nothing. */
  lemma EmptyActivationNoPlugins(packageName: string, lookup: FileLookup, env: Environment,
                                 registry: Registry, doc: Yaml)
    requires EnvDollarFree(env) && packageName != ""
    requires lookup(packageName, ApplicationFile) == Located(Parsed(doc))
    requires Filter(doc, Some(ActivationKey)) == Success(Map(map[]))
    ensures Construct(packageName, lookup, env, registry) == Success(Resolution([], [], None))
  {
    BuildFromTokenFreeSection(lookup, packageName, ApplicationFile, ActivationListFrom, ActivationKey,
                              env, doc, map[]);
  }

  /** `ApplicationPluginManagerAbstract` once constructed: its package, its
      activation list, the accepted modules and every call made into them. */
  class PluginManager {
    const packageName: string
    const activation: seq<string>
    var plugins: seq<PluginModule>
    var calls: seq<Call>

    /** The fields as `__init__` sets them before resolving. */
    constructor(packageName: string, activation: seq<string>)
      ensures this.packageName == packageName && this.activation == activation
      ensures plugins == [] && calls == []
    {
      this.packageName := packageName;
      this.activation := activation;
      plugins := [];
      calls := [];
    }

    /** `_check_pre_conditions`: the loop of Resolve, appending to the
        plugins in place. */
    method CheckPreConditions(registry: Registry) returns (failure: Option<ManagerError>)
      requires plugins == [] && calls == []
      modifies this
      ensures Resolution(plugins, calls, failure) == Resolve(registry, activation)
    {
      var i := 0;
      failure := None;
      while i < |activation|
        invariant 0 <= i <= |activation|
        invariant Resolution(plugins, calls, None) == Resolve(registry, activation[..i])
      {
        var name := activation[i];
        ResolvePrefixStep(registry, activation, i);
        if name !in registry {
          failure := Some(PluginNotImportable(name));
          RejectionIsFinal(registry, activation, i);
          return;
        }
        var m := registry[name];
        if !m.conforms {
          failure := Some(PluginNotConforming(name));
          RejectionIsFinal(registry, activation, i);
          return;
        }
        calls := calls + [PreConditionsCheck(m)];
        if !m.preConditionsHold {
          failure := Some(PluginPreConditionsFailed(name));
          RejectionIsFinal(registry, activation, i);
          return;
        }
        plugins := plugins + [m];
        i := i + 1;
      }
      assert activation[..i] == activation;
    }

    /** Run one hook over the accepted modules in order; the first hook
        that raises ends the run, and its module is returned. */
    method RunHook(hook: Hook) returns (raised: Option<PluginModule>)
      modifies this
      ensures plugins == old(plugins)
      ensures calls == old(calls) + HookCalls(plugins, hook)
      ensures raised == HookRaised(plugins, hook)
    {
      var ps := plugins;
      var i := 0;
      while i < |ps|
        invariant 0 <= i <= |ps|
        invariant plugins == ps
        invariant FirstRaising(ps, hook, 0) == FirstRaising(ps, hook, i)
        invariant calls == old(calls) + HookPrefix(ps, hook, i)
      {
        assert HookPrefix(ps, hook, i + 1) == HookPrefix(ps, hook, i) + [HookCall(ps[i], hook)];
        calls := calls + [HookCall(ps[i], hook)];
        if Raises(ps[i], hook) {
          return Some(ps[i]);
        }
        i := i + 1;
      }
      return None;
    }

    /** `_on_load`: `on_load` once per accepted module, in order, until
        one raises. */
    method OnLoadAll() returns (raised: Option<PluginModule>)
      modifies this
      ensures plugins == old(plugins)
      ensures calls == old(calls) + HookCalls(plugins, Load)
      ensures raised == HookRaised(plugins, Load)
    {
      raised := RunHook(Load);
    }

    /** `_on_startup`: `on_startup` once per accepted module, each awaited
        before the next, until one raises. */
    method OnStartupAll() returns (raised: Option<PluginModule>)
      modifies this
      ensures plugins == old(plugins)
      ensures calls == old(calls) + HookCalls(plugins, Startup)
      ensures raised == HookRaised(plugins, Startup)
    {
      raised := RunHook(Startup);
    }
  }

  /** `ApplicationPluginManagerAbstract()`: check the package name, read the
      activation list, then resolve the plugins. */
  method NewPluginManager(packageName: string, lookup: FileLookup, env: Environment, registry: Registry)
    returns (r: Result<PluginManager, ManagerError>)
    requires EnvDollarFree(env)
    ensures r.Failure? <==> Construct(packageName, lookup, env, registry).Failure?
    ensures r.Failure? ==> r.error == Construct(packageName, lookup, env, registry).error
    ensures r.Success? ==>
              fresh(r.value) && r.value.packageName == packageName &&
              Resolution(r.value.plugins, r.value.calls, None) == Construct(packageName, lookup, env, registry).value
  {
    if packageName == "" {
      return Failure(PackageNameUnset);
    }
    var activation := BuildPluginsActivationList(lookup, packageName, env);
    if activation.Failure? {
      return Failure(activation.error);
    }
    var manager := new PluginManager(packageName, activation.value);
    var failure := manager.CheckPreConditions(registry);
    if failure.Some? {
      return Failure(failure.value);
    }
    return Success(manager);
  }
}
