/**
 * `PluginsRegistry`: the plugin table, the extension-point store and the
 * stage, with the registration API and the dependency-resolving `init`.
 * Every method is proved against the value-level definitions of the
 * ExtensionPoints and Resolution modules, whose properties are proved there.
 */
module Registry {
  import opened Wrappers
  import opened Stages
  import opened Plugins
  import opened ExtensionPoints
  import opened Resolution

  /** The plugins filed under `keys`, in the order of `keys`. */
  function ValuesInOrder(table: map<string, Plugin>, keys: seq<string>): (r: seq<Plugin>)
    requires forall i :: 0 <= i < |keys| ==> keys[i] in table
    ensures |r| == |keys|
    ensures forall i :: 0 <= i < |keys| ==> r[i] == table[keys[i]]
  {
    if keys == [] then [] else [table[keys[0]]] + ValuesInOrder(table, keys[1..])
  }

  /**
   * The plugin table files every plugin under its own name, and `order`
   * lists the table's keys once each, in insertion order.
   */
  ghost predicate WellFormed(table: map<string, Plugin>, order: seq<string>) {
    (forall k :: k in table ==> table[k].pluginName == k) &&
    (forall k :: k in table ==> k in order) &&
    (forall i :: 0 <= i < |order| ==> order[i] in table) &&
    (forall i, j :: 0 <= i < j < |order| ==> order[i] != order[j])
  }

  /** The `requires` list of every plugin in the table. */
  function DependencyGraph(table: map<string, Plugin>): Graph {
    map k | k in table :: table[k].required
  }

  /** The plugins listed in insertion order are every registered plugin, each exactly once. */
  lemma EveryPluginOnce(table: map<string, Plugin>, order: seq<string>)
    requires WellFormed(table, order)
    ensures var r := ValuesInOrder(table, order);
      (forall k :: k in table ==> table[k] in r) &&
      (forall i, j :: 0 <= i < j < |r| ==> r[i] != r[j])
  {
    var r := ValuesInOrder(table, order);
    forall k | k in table ensures table[k] in r {
      var i :| 0 <= i < |order| && order[i] == k;
      assert r[i] == table[k];
    }
    forall i, j | 0 <= i < j < |r| ensures r[i] != r[j] {
      assert r[i].pluginName == order[i] && r[j].pluginName == order[j];
    }
  }

  class PluginsRegistry {
    /** The plugin table, keyed by plugin name. */
    var plugins: map<string, Plugin>
    /** The table's keys in insertion order, the order in which a JavaScript `Map` iterates. */
    var order: seq<string>
    var stage: Stage
    var extensionPoints: Store
    /** How many initialisation promises `pluginInitialise` has created. */
    var promisesCreated: nat
    /** Stage changes and hook invocations, in the order they happen. */
    ghost var log: seq<Event>
    /** The `state` of every registered plugin, keyed by name (see `Mirrored`). */
    ghost var slots: map<string, Option<Promise>>

    /** `slots` holds exactly the `state` field of each registered plugin object. */
    ghost predicate Mirrored()
      reads this`plugins, this`slots, plugins.Values`state
    {
      slots.Keys == plugins.Keys && forall k :: k in plugins ==> slots[k] == plugins[k].state
    }

    /** The part of the heap the initialiser reads and writes, as a value. */
    ghost function Snapshot(): World
      reads this`slots, this`promisesCreated, this`log
    {
      World(slots, promisesCreated, log)
    }

    constructor ()
      ensures WellFormed(plugins, order) && Mirrored()
      ensures plugins == map[] && order == [] && stage == Configuration
      ensures extensionPoints == map[] && promisesCreated == 0 && log == [] && slots == map[]
    {
      plugins := map[];
      order := [];
      stage := Configuration;
      extensionPoints := map[];
      promisesCreated := 0;
      log := [];
      slots := map[];
    }

    /** `pluginsList`: the registered plugins in insertion order (see `EveryPluginOnce`). */
    function PluginsList(): (r: seq<Plugin>)
      reads this`plugins, this`order
      requires WellFormed(plugins, order)
      ensures |r| == |order|
      ensures forall i :: 0 <= i < |order| ==> r[i] == plugins[order[i]] && r[i].pluginName == order[i]
    {
      ValuesInOrder(plugins, order)
    }

    /** `assertExtensionPointExits`. */
    function AssertExtensionPointExists(name: string): (r: Outcome<RegistryError>)
      reads this
      ensures r.Pass? <==> name in extensionPoints
      ensures r.Fail? ==> r.error == NoExtensionPoint(name)
    {
      if name !in extensionPoints then Fail(NoExtensionPoint(name)) else Pass
    }

    /** `assertPluginNotRegistred`. */
    function AssertPluginNotRegistered(name: string): (r: Outcome<RegistryError>)
      reads this
      ensures r.Pass? <==> name !in plugins
      ensures r.Fail? ==> r.error == PluginAlreadyRegistered(name)
    {
      if name in plugins then Fail(PluginAlreadyRegistered(name)) else Pass
    }

    /**
     * `attachToExtensionPoint`: legal only in PluginsInitialisation and only
     * for a registered point; appends the item to that point and changes
     * nothing else.
     */
    method AttachToExtensionPoint(name: string, item: Item) returns (r: Outcome<RegistryError>)
      modifies this`extensionPoints
      ensures stage != PluginsInitialisation ==> r == Fail(StageForbidden("attachToExtensionPoint", PluginsInitialisation))
      ensures stage == PluginsInitialisation && name !in old(extensionPoints) ==> r == Fail(NoExtensionPoint(name))
      ensures r.Pass? <==> stage == PluginsInitialisation && name in old(extensionPoints)
      ensures r.Pass? ==> name in old(extensionPoints) && extensionPoints == WithItem(old(extensionPoints), name, item)
      ensures r.Fail? ==> extensionPoints == old(extensionPoints)
    {
      GateRequiresStage(stage, PluginsInitialisation, "attachToExtensionPoint");
      r := AssertStage(stage, PluginsInitialisation, "attachToExtensionPoint");
      if r.Fail? {
        return;
      }
      r := AssertExtensionPointExists(name);
      if r.Fail? {
        return;
      }
      var point := extensionPoints[name];
      extensionPoints := extensionPoints[name := point.(items := point.items + [item])];
    }

    /**
     * `registerExtensionPoint`: forbidden only in Ready; the first
     * registration of a name wins and later ones change nothing.
     */
    method RegisterExtensionPoint(name: string, handler: Item -> Item := Identity) returns (r: Outcome<RegistryError>)
      modifies this`extensionPoints
      ensures stage == Ready ==> r == Fail(StageForbidden("registerExtensionPoint", Ready))
      ensures r.Pass? <==> stage != Ready
      ensures r.Pass? ==> extensionPoints == WithPoint(old(extensionPoints), name, handler)
      ensures r.Fail? ==> extensionPoints == old(extensionPoints)
    {
      GateForbidsStage(stage, Ready, "registerExtensionPoint");
      r := AssertStage(stage, Ready, "registerExtensionPoint", StagesEqual);
      if r.Fail? {
        return;
      }
      if name !in extensionPoints {
        extensionPoints := extensionPoints[name := ExtensionPoint([], handler)];
      }
    }

    /**
     * `registerPlugin`: legal only in Configuration and only for a new name;
     * files the plugin under its name, last in insertion order.
     */
    method RegisterPlugin(plugin: Plugin) returns (r: Outcome<RegistryError>)
      requires WellFormed(plugins, order) && Mirrored()
      modifies this`plugins, this`order, this`slots
      ensures WellFormed(plugins, order) && Mirrored()
      ensures stage != Configuration ==> r == Fail(StageForbidden("registerPlugin", Configuration))
      ensures stage == Configuration && plugin.pluginName in old(plugins) ==> r == Fail(PluginAlreadyRegistered(plugin.pluginName))
      ensures r.Pass? <==> stage == Configuration && plugin.pluginName !in old(plugins)
      ensures r.Pass? ==> plugins == old(plugins)[plugin.pluginName := plugin] && order == old(order) + [plugin.pluginName]
      ensures r.Fail? ==> plugins == old(plugins) && order == old(order) && slots == old(slots)
    {
      GateRequiresStage(stage, Configuration, "registerPlugin");
      r := AssertStage(stage, Configuration, "registerPlugin");
      if r.Fail? {
        return;
      }
      r := AssertPluginNotRegistered(plugin.pluginName);
      if r.Fail? {
        return;
      }
      plugins := plugins[plugin.pluginName := plugin];
      order := order + [plugin.pluginName];
      slots := slots[plugin.pluginName := plugin.state];
    }

    /** `applyExtensionPoint`: the point's items through its handler, or None for an unknown name. */
    function ApplyExtensionPoint(name: string): (r: Option<seq<Item>>)
      reads this
      ensures r.None? <==> name !in extensionPoints
      ensures r.Some? ==> |r.value| == |extensionPoints[name].items|
      ensures r.Some? ==> forall i :: 0 <= i < |r.value| ==>
                r.value[i] == extensionPoints[name].handler(extensionPoints[name].items[i])
    {
      Apply(extensionPoints, name)
    }

    /**
     * `pluginInitialise`, as the sequential traversal `Initialise`: takes a
     * new promise, resolves the plugin's dependencies, then stores the
     * promise in its slot and invokes its hook. Nothing but the slots, the
     * promise count and the log changes; the hooks themselves do nothing else.
     */
    method PluginInitialise(plugin: Plugin, ghost rank: map<string, nat>) returns (r: Result<Promise, RegistryError>)
      requires WellFormed(plugins, order) && Mirrored() && plugin.pluginName in plugins && plugins[plugin.pluginName] == plugin
      requires RankedBy(DependencyGraph(plugins), rank)
      modifies this`promisesCreated, this`log, this`slots, plugins.Values`state
      ensures plugins == old(plugins) && order == old(order) && Mirrored()
      ensures var spec := Initialise(DependencyGraph(plugins), rank, old(Snapshot()), plugin.pluginName);
        (spec.Ok? ==> r == Ok(spec.value.0) && Snapshot() == spec.value.1) &&
        (spec.Err? ==> r == Err(spec.error))
      decreases rank[plugin.pluginName], 1
    {
      var name := plugin.pluginName;
      ghost var g := DependencyGraph(plugins);
      ghost var w0 := Snapshot();
      var promise := NewPromise();
      ghost var w1 := Snapshot();
      assert g == DependencyGraph(plugins) && w1 == w0.(created := w0.created + 1);
      InitialiseAfterDeps(g, rank, w0, name);
      ghost var spec := ResolveDeps(g, rank, name, 0, w1, []);
      var deps := ResolveDependencies(plugin, rank);
      assert g == DependencyGraph(plugins);
      if deps.Err? {
        assert spec.Err? && deps.error == spec.error;
        return Err(deps.error);
      }
      ghost var w2 := Snapshot();
      assert spec.Ok? && deps.value == spec.value.0 && w2 == spec.value.1;
      StorePromise(plugin, promise, deps.value);
      assert g == DependencyGraph(plugins);
      return Ok(promise);
    }

    /** The promise `pluginInitialise` creates for its plugin, numbered by creation. */
    method NewPromise() returns (promise: Promise)
      modifies this`promisesCreated
      ensures plugins == old(plugins) && order == old(order) && Mirrored() == old(Mirrored())
      ensures promise == Promise(old(promisesCreated))
      ensures Snapshot() == old(Snapshot()).(created := old(promisesCreated) + 1)
    {
      promise := Promise(promisesCreated);
      promisesCreated := promisesCreated + 1;
    }

    /**
     * The end of `pluginInitialise`: stores the promise in the plugin's slot
     * and invokes its `init` hook with the dependencies' promises; no other
     * slot changes.
     */
    method StorePromise(plugin: Plugin, promise: Promise, awaited: seq<Promise>)
      requires WellFormed(plugins, order) && Mirrored() && plugin.pluginName in plugins && plugins[plugin.pluginName] == plugin
      modifies plugin`state, this`slots, this`log
      ensures plugins == old(plugins) && order == old(order) && Mirrored()
      ensures var w := old(Snapshot());
        Snapshot() == w.(slots := w.slots[plugin.pluginName := Some(promise)],
                         log := w.log + [InitHook(plugin.pluginName, promise, awaited)])
    {
      plugin.state := Some(promise);
      slots := slots[plugin.pluginName := Some(promise)];
      log := log + [InitHook(plugin.pluginName, promise, awaited)];
      forall k | k in plugins ensures slots[k] == plugins[k].state {
        assert k != plugin.pluginName ==> plugins[k].pluginName != plugin.pluginName;
      }
    }

    /**
     * The dependency loop of `pluginInitialise`, as `ResolveDeps`: for each
     * name the plugin requires, in order, the promise already in that
     * plugin's slot, or else the promise of initialising it now. Stops at
     * the first name that is not registered.
     */
    method ResolveDependencies(plugin: Plugin, ghost rank: map<string, nat>) returns (r: Result<seq<Promise>, RegistryError>)
      requires WellFormed(plugins, order) && Mirrored() && plugin.pluginName in plugins && plugins[plugin.pluginName] == plugin
      requires RankedBy(DependencyGraph(plugins), rank)
      modifies this`promisesCreated, this`log, this`slots, plugins.Values`state
      ensures plugins == old(plugins) && order == old(order) && Mirrored()
      ensures var spec := ResolveDeps(DependencyGraph(plugins), rank, plugin.pluginName, 0, old(Snapshot()), []);
        (spec.Ok? ==> r == Ok(spec.value.0) && Snapshot() == spec.value.1) &&
        (spec.Err? ==> r == Err(spec.error))
      decreases rank[plugin.pluginName], 0
    {
      var name := plugin.pluginName;
      ghost var g := DependencyGraph(plugins);
      ghost var w0 := Snapshot();
      var awaited: seq<Promise> := [];
      var i := 0;
      while i < |plugin.required|
        invariant 0 <= i <= |plugin.required| == |g[name]|
        invariant plugins == old(plugins) && order == old(order) && g == DependencyGraph(plugins) && Mirrored()
        invariant Snapshot().slots.Keys == g.Keys
        invariant ResolveDeps(g, rank, name, 0, w0, []) == ResolveDeps(g, rank, name, i, Snapshot(), awaited)
      {
        ghost var w := Snapshot();
        ResolveDepsStep(g, rank, name, i, w, awaited);
        var d := plugin.required[i];
        if d !in plugins {
          return Err(MissingDependency(d));
        }
        var dependency := plugins[d];
        assert w.slots[d] == dependency.state;
        if dependency.state.Some? {
          awaited := awaited + [dependency.state.value];
        } else {
          var resolved := PluginInitialise(dependency, rank);
          if resolved.Err? {
            return Err(resolved.error);
          }
          awaited := awaited + [resolved.value];
        }
        i := i + 1;
      }
      ResolveDepsStep(g, rank, name, i, Snapshot(), awaited);
      return Ok(awaited);
    }

    /** `notifyPluginOnInitFinish`: invokes the plugin's finish hook, which changes nothing else. */
    method NotifyPluginOnInitFinish(plugin: Plugin)
      modifies this`log
      ensures log == old(log) + [FinishHook(plugin.pluginName)]
    {
      log := log + [FinishHook(plugin.pluginName)];
    }

    /**
     * `init`, as `InitRun`: enters PluginsInitialisation whatever the current
     * stage, initialises every plugin at its turn in insertion order,
     * notifies every plugin, and enters Ready. On failure the stage stays
     * PluginsInitialisation.
     */
    method Init(ghost rank: map<string, nat>) returns (r: Outcome<RegistryError>)
      requires WellFormed(plugins, order) && Mirrored() && RankedBy(DependencyGraph(plugins), rank)
      modifies this`stage, this`promisesCreated, this`log, this`slots, plugins.Values`state
      ensures plugins == old(plugins) && order == old(order) && Mirrored()
      ensures var spec := InitRun(DependencyGraph(plugins), rank, order, old(Snapshot()));
        (spec.Ok? ==> r == Pass && stage == Ready && Snapshot() == spec.value) &&
        (spec.Err? ==> r == Fail(spec.error) && stage == PluginsInitialisation)
    {
      ghost var g := DependencyGraph(plugins);
      ghost var w0 := Snapshot();
      EnterStage(PluginsInitialisation);
      ghost var started := Snapshot();
      assert g == DependencyGraph(plugins) && started == w0.(log := w0.log + [StageEntered(PluginsInitialisation)]);
      ghost var spec := FanOut(g, rank, order, 0, started);
      r := InitialisePlugins(rank);
      assert g == DependencyGraph(plugins);
      if r.Fail? {
        assert spec.Err? && r.error == spec.error;
        return;
      }
      ghost var initialised := Snapshot();
      assert spec.Ok? && initialised == spec.value;
      NotifyPlugins();
      ghost var notified := initialised.(log := initialised.log + FinishHooks(order));
      assert Snapshot() == notified;
      EnterStage(Ready);
      assert g == DependencyGraph(plugins);
      assert Snapshot() == notified.(log := notified.log + [StageEntered(Ready)]);
      assert InitRun(g, rank, order, w0) == Ok(notified.(log := notified.log + [StageEntered(Ready)]));
    }

    /** A stage assignment of `init`, recorded in the log. */
    method EnterStage(next: Stage)
      modifies this`stage, this`log
      ensures stage == next && log == old(log) + [StageEntered(next)]
      ensures Snapshot() == old(Snapshot()).(log := old(log) + [StageEntered(next)])
    {
      stage := next;
      log := log + [StageEntered(next)];
    }

    /**
     * The fan-out of `init`, as `FanOut`: `pluginInitialise` for every
     * registered plugin in insertion order, whether or not an earlier
     * dependency resolution has already set its slot.
     */
    method InitialisePlugins(ghost rank: map<string, nat>) returns (r: Outcome<RegistryError>)
      requires WellFormed(plugins, order) && Mirrored() && RankedBy(DependencyGraph(plugins), rank)
      modifies this`promisesCreated, this`log, this`slots, plugins.Values`state
      ensures plugins == old(plugins) && order == old(order) && Mirrored()
      ensures var spec := FanOut(DependencyGraph(plugins), rank, order, 0, old(Snapshot()));
        (spec.Ok? ==> r == Pass && Snapshot() == spec.value) &&
        (spec.Err? ==> r == Fail(spec.error))
    {
      ghost var g := DependencyGraph(plugins);
      ghost var spec := FanOut(g, rank, order, 0, Snapshot());
      var list := PluginsList();
      var i := 0;
      while i < |list|
        invariant 0 <= i <= |list| == |order|
        invariant plugins == old(plugins) && order == old(order) && g == DependencyGraph(plugins) && Mirrored()
        invariant spec == FanOut(g, rank, order, i, Snapshot())
      {
        var res := InitialiseTurn(list[i], i, rank);
        if res.Err? {
          return Fail(res.error);
        }
        i := i + 1;
      }
      return Pass;
    }

    /** One turn of the fan-out: `pluginInitialise` for `plugin`, the `i`-th registered plugin. */
    method InitialiseTurn(plugin: Plugin, i: nat, ghost rank: map<string, nat>) returns (r: Result<Promise, RegistryError>)
      requires WellFormed(plugins, order) && Mirrored() && RankedBy(DependencyGraph(plugins), rank)
      requires i < |order| && plugin == plugins[order[i]]
      modifies this`promisesCreated, this`log, this`slots, plugins.Values`state
      ensures plugins == old(plugins) && order == old(order) && Mirrored()
      ensures var g := DependencyGraph(plugins);
        (r.Err? ==> FanOut(g, rank, order, i, old(Snapshot())) == Err(r.error)) &&
        (r.Ok? ==> FanOut(g, rank, order, i, old(Snapshot())) == FanOut(g, rank, order, i + 1, Snapshot()))
    {
      ghost var g := DependencyGraph(plugins);
      FanOutUnfold(g, rank, order, i, Snapshot());
      r := PluginInitialise(plugin, rank);
    }

    /** The notification pass of `init`: every plugin's finish hook, in insertion order. */
    method NotifyPlugins()
      requires WellFormed(plugins, order)
      modifies this`log
      ensures log == old(log) + FinishHooks(order)
    {
      var list := PluginsList();
      var i := 0;
      while i < |list|
        invariant 0 <= i <= |list| == |order|
        invariant log == old(log) + FinishHooks(order[..i])
      {
        assert list[i].pluginName == order[i];
        NotifyPluginOnInitFinish(list[i]);
        FinishHooksSnoc(old(log), order, i);
        i := i + 1;
      }
      assert order[..|list|] == order;
    }
  }
}
