# Pluggable plugin registry, modelled in Dafny

This project models the core of a small TypeScript plugin system: the
`PluginsRegistry` class and the `Plugin` base class.

The registry keeps four pieces of state:
- a table of plugins keyed by name;
- a store of named extension points, each holding a list of items and a handler;
- a lifecycle stage, which runs Configuration → PluginsInitialisation → Ready;
- for each plugin, a `state` slot that holds its initialisation promise.

Plugins are registered while the registry is in Configuration. Extension points can be registered in any stage except Ready. Items can be attached to a point only during PluginsInitialisation. Reading a point maps its items through its handler.

`init` moves the stage to PluginsInitialisation, then calls `pluginInitialise` on every plugin in insertion order. `pluginInitialise` creates a promise for the plugin and resolves its `requires` list. Each dependency whose slot is already set is reused. Each other dependency is initialised first, recursively. Only after that does the plugin's own slot receive the promise, and the plugin's `init` hook runs. Finally `init` calls every plugin's `onRegistryInitFinish` hook and enters Ready.

Modules:
- `Wrappers`: `Option`, `Outcome` (a call that completes or throws) and `Result`.
- `Stages`: the stage enum, the two comparators, the `assertStage` gate and the errors the registry throws.
- `Plugins`: the `Plugin` class and the `Promise` values. A promise is identified by a serial number.
- `ExtensionPoints`: the extension-point store as values, and its laws.
- `Resolution`: `pluginInitialise` and `init` as a pure traversal over a `World`. A `World` holds the slots, the promise counter and an event log. This module also holds the properties of that traversal: dependencies run before dependents, memoisation, the run's log shape, and exactly when `init` succeeds.
- `Registry`: the `PluginsRegistry` class. Its methods update fields in place and are proved against the `ExtensionPoints` and `Resolution` definitions.

Hooks are the plugin author's code. The model does not run them. It records in a ghost log the moment each hook is invoked and which promises it awaited. The default hooks resolve at once and touch nothing, so recording them loses nothing.

Cycles in `requires` are excluded by a ghost `rank` argument. The rank must decrease along every dependency edge. A cycle that the traversal enters while its slots are unset makes the source recurse without end.

## Model

| member | source | states |
|---|---|---|
| Stages.StageNamesDistinct | src/PluginsRegistry.ts:6-10 | The stage names are pairwise distinct. So comparing stage strings is the same as comparing stages. |
| Stages.StagesNotEqual | src/PluginsRegistry.ts:3 | The not-equal comparator, on stage strings, holds exactly when the stages differ. |
| Stages.StagesEqual | src/PluginsRegistry.ts:4 | The equal comparator, on stage strings, holds exactly when the stages are the same. |
| Stages.AssertStage | src/PluginsRegistry.ts:39-43 | A gate failure names the method and the stage passed as the argument. It does not name the current stage. |
| Stages.GateRequiresStage | src/PluginsRegistry.ts:39-43 | With the default not-equal comparator, the gate passes if and only if the current stage is the given stage. |
| Stages.GateForbidsStage | src/PluginsRegistry.ts:39-43 | With the equal comparator, the gate passes if and only if the current stage is not the given stage. |
| ExtensionPoints.MapItems | src/PluginsRegistry.ts:101 | Mapping keeps the length. Element i of the result is the handler applied to item i. |
| ExtensionPoints.Apply | src/PluginsRegistry.ts:90-102 | Reading a point gives null exactly when the name is unknown. Otherwise it gives each stored item through the point's handler, in order. |
| ExtensionPoints.WithPoint | src/PluginsRegistry.ts:73-75 | A successful `registerExtensionPoint` on the store. The name is added. An existing point is kept as it is. A new point starts empty with the given handler. Every other point is unchanged. |
| ExtensionPoints.WithItem | src/PluginsRegistry.ts:65 | A successful `attachToExtensionPoint` on the store. The item goes at the end of that point's items. The handler, the set of names and every other point are unchanged. |
| ExtensionPoints.MapItemsAppend | src/PluginsRegistry.ts:101 | Mapping distributes over concatenation of item lists. |
| ExtensionPoints.ApplyIdentity | src/PluginsRegistry.ts:68 | A point registered with the default handler gives back its items unchanged. |
| ExtensionPoints.FirstRegistrationWins | src/PluginsRegistry.ts:73-75 | Registering a name that already exists changes nothing: the first handler and the items so far are kept. Registering a new name yields no items. |
| ExtensionPoints.RegisterLeavesOthers | src/PluginsRegistry.ts:68-76 | Registering one point leaves what every other point yields unchanged. |
| ExtensionPoints.ApplyAfterAttach | src/PluginsRegistry.ts:59-66 | After an attach, the point yields what it yielded before plus the handled new item at the end. Other points are unchanged. |
| ExtensionPoints.WithItemsAppends | src/PluginsRegistry.ts:65 | Attaching a list of items one by one appends them to the point in that order. |
| ExtensionPoints.ApplyAfterAttachments | src/PluginsRegistry.ts:59-66 | Items are read back in the order they were attached, each through the point's handler. |
| Plugins.Plugin.constructor | src/Plugin.ts:3-21 | A new plugin stores its options, is named `plugin`, requires nothing and has a null state. |
| Plugins.Plugin.Declared | src/Plugin.ts:6-9 | A subclass that overrides the name and `requires` gets exactly those values and starts with a null state. |
| Registry.ValuesInOrder | src/PluginsRegistry.ts:35-37 | Element i of the result is the plugin filed under the i-th key. |
| Registry.EveryPluginOnce | src/PluginsRegistry.ts:35-37 | The plugins list contains every registered plugin, each exactly once. |
| Registry.PluginsRegistry.constructor | src/PluginsRegistry.ts:24-26 | A new registry has no plugins and no extension points, and is in Configuration. |
| Registry.PluginsRegistry.PluginsList | src/PluginsRegistry.ts:35-37 | Gives the registered plugins in insertion order. Element i is filed under, and named, the i-th inserted key. |
| Registry.PluginsRegistry.AssertExtensionPointExists | src/PluginsRegistry.ts:45-51 | Passes exactly when the point is registered. Otherwise it fails with that name's missing-point error. |
| Registry.PluginsRegistry.AssertPluginNotRegistered | src/PluginsRegistry.ts:53-57 | Passes exactly when no plugin has that name. Otherwise it fails with that name's duplicate error. |
| Registry.PluginsRegistry.ApplyExtensionPoint | src/PluginsRegistry.ts:90-102 | Returns null exactly when the point is unknown, and never throws. Otherwise it returns one result per stored item: the point's handler applied to that item, in order. |
| Registry.PluginsRegistry.AttachToExtensionPoint | src/PluginsRegistry.ts:59-66 | Succeeds if and only if the stage is PluginsInitialisation and the point exists. The stage error is checked first, then the missing-point error. On success the item is appended to that point. On failure nothing changes. |
| Registry.PluginsRegistry.RegisterExtensionPoint | src/PluginsRegistry.ts:68-76 | Fails if and only if the stage is Ready. Otherwise a new name gets an empty point with the given handler, and an existing name is left as it is. |
| Registry.PluginsRegistry.RegisterPlugin | src/PluginsRegistry.ts:78-85 | Succeeds if and only if the stage is Configuration and the name is new. The stage error comes first, then the duplicate error. On success the plugin is filed under its name and placed last in insertion order. On failure nothing changes. Keeps the table well formed. |
| Registry.PluginsRegistry.PluginInitialise | src/PluginsRegistry.ts:104-142 | Result and new slots, counter and log equal `Resolution.Initialise` of the old state. Only slots, the counter and the log change. |
| Registry.PluginsRegistry.NewPromise | src/PluginsRegistry.ts:107 | The new promise carries the next serial number. The count goes up by one. |
| Registry.PluginsRegistry.ResolveDependencies | src/PluginsRegistry.ts:116-133 | The awaited promises, or the error, and the new state equal `Resolution.ResolveDeps` of the old state. |
| Registry.PluginsRegistry.StorePromise | src/PluginsRegistry.ts:107-135 | Only this plugin's slot changes: it now holds the promise. The log gains this plugin's init hook with the awaited promises. |
| Registry.PluginsRegistry.NotifyPluginOnInitFinish | src/PluginsRegistry.ts:144-148 | Appends exactly one finish hook for this plugin to the log. |
| Registry.PluginsRegistry.NotifyPlugins | src/PluginsRegistry.ts:166 | Appends one finish hook per plugin, in insertion order. |
| Registry.PluginsRegistry.InitialisePlugins | src/PluginsRegistry.ts:161 | The outcome and the new state equal `Resolution.FanOut` of the old state. |
| Registry.PluginsRegistry.InitialiseTurn | src/PluginsRegistry.ts:161 | One fan-out turn advances `Resolution.FanOut` by one position, or returns its error. |
| Registry.PluginsRegistry.EnterStage | src/PluginsRegistry.ts:155-168 | Sets the stage and records the change in the log. |
| Registry.PluginsRegistry.Init | src/PluginsRegistry.ts:150-169 | Equals `Resolution.InitRun` of the old state. On success the stage is Ready. On failure the stage stays PluginsInitialisation. Plugins and their order do not change. |
| Resolution.Initialise | src/PluginsRegistry.ts:104-142 | When `pluginInitialise` succeeds, every registered plugin still has a slot. |
| Resolution.InitialiseAfterDeps | src/PluginsRegistry.ts:107-135 | Proof step: one unfolding of `Initialise`, used by the method proofs. The promise is created before the dependencies are resolved. It is stored, and the hook invoked, only after they are resolved. Any error from resolving them is passed through. |
| Resolution.ResolveDepsStep | src/PluginsRegistry.ts:120-131 | Proof step: one unfolding of `ResolveDeps`, used by the method proofs. One dependency, case by case: an unknown name fails, a set slot is awaited, and an unset slot is initialised first. |
| Resolution.FanOutUnfold | src/PluginsRegistry.ts:161 | Proof step: one unfolding of `FanOut`, used by the method proofs. One turn of the fan-out either passes the error on or continues from the new state. |
| Resolution.FinishHooks | src/PluginsRegistry.ts:166 | Gives one finish hook per plugin, in insertion order. |
| Resolution.FinishHooksSnoc | src/PluginsRegistry.ts:166 | Proof step for the notification loop. Notifying one more plugin appends that plugin's finish hook. |
| Resolution.InitialiseSound | src/PluginsRegistry.ts:104-142 | `pluginInitialise` keeps dependencies before dependents, keeps every stored promise's hook fired, and sets this plugin's slot to the promise of its last hook. It re-initialises no plugin whose slot was already set, and awaits such a plugin's stored promise. |
| Resolution.InitialiseOnce | src/PluginsRegistry.ts:104-142 | Within one `pluginInitialise`, the hooks invoked name pairwise distinct plugins, so a plugin that several dependents require is initialised only once. Every plugin initialised ends with a set slot, and none ranks above the plugin itself. |
| Resolution.ResolveDepsOnce | src/PluginsRegistry.ts:116-133 | Resolving dependencies invokes each plugin's hook at most once. Every plugin it initialises ends with a set slot and ranks below the dependent. |
| Resolution.ResolveDepsSound | src/PluginsRegistry.ts:116-133 | Resolving dependencies keeps the world coherent, awaits one fired promise per required name, and reuses every promise already stored. |
| Resolution.FanOutSound | src/PluginsRegistry.ts:161 | The fan-out adds only init hooks, keeps the world coherent, and leaves every plugin with a set slot whose hook fired during it. |
| Resolution.InitRunSound | src/PluginsRegistry.ts:150-169 | On success `init` logs, in order: the stage change, only init hooks, one finish hook per plugin in insertion order, then Ready. Every plugin ends with a promise whose hook fired in this run, after the hooks it awaited. |
| Resolution.RunLogShape | src/PluginsRegistry.ts:155-168 | After a successful fan-out, the log is the old log, then the stage change, then the init hooks, then the finish hooks, then Ready. |
| Resolution.RunSlotsFired | src/PluginsRegistry.ts:161-168 | Notifying and entering Ready keep the world coherent. Each plugin's stored promise was fired during the fan-out. |
| Resolution.FreshWorldCoherent | src/PluginsRegistry.ts:150-169 | A registry whose slots are all unset and whose log holds no hook is coherent. So `InitRunSound` applies to the first `init`. |
| Resolution.InitialiseTotal | src/PluginsRegistry.ts:120-131 | If every required name is registered, `pluginInitialise` cannot fail. |
| Resolution.ResolveDepsMissing | src/PluginsRegistry.ts:121-131 | A required name with no registered plugin makes dependency resolution fail. |
| Resolution.InitRunSucceedsIffClosed | src/PluginsRegistry.ts:150-169 | `init` completes if and only if every required name of every plugin is registered. |
| Resolution.ResolvedDependenciesReused | src/PluginsRegistry.ts:130-132 | When all dependencies already have promises, they are awaited as stored and nothing else is initialised. |
| Resolution.DependentTurn | src/PluginsRegistry.ts:104-142 | Initialising `a`, which requires `b`, from scratch initialises `b` first. `a` gets the earlier-created promise, and `b`'s hook runs first. |
| Resolution.DependentFirstReinitialises | src/PluginsRegistry.ts:161 | With `a` (which requires `b`) registered before `b`, `b` is initialised twice. Its slot is overwritten at its own turn. |
| Resolution.DependencyFirstInitialisesOnce | src/PluginsRegistry.ts:130-161 | With `b` registered before `a`, each plugin is initialised once, and `a` awaits `b`'s stored promise. |
| Resolution.DiamondInitialisesSharedOnce | src/PluginsRegistry.ts:104-142 | `a` requires `b` and `c`, and `c` requires `b`. From unset slots, `b` is initialised once and `c` awaits `b`'s promise. Exactly three hooks run: `b`, `c`, `a`. |
| Resolution.UnregisteredDependencyFails | src/PluginsRegistry.ts:121-131 | A plugin that requires an unregistered name makes `init` fail. |

## Left out

- Logging (`PluginsRegistry.log`, lines 28-33): console output only. It has no effect on state.
- Error message texts. Each error carries the values its message interpolates (method and stage, or a name), not the string.
- The unused `shouldThrow` parameter of `assertExtensionPointExits`. The source never reads it.
- Promise scheduling. The traversal is modelled as the synchronous part of `pluginInitialise`: promise creation, recursion into dependencies, and assignment of the slot. The `init` hook really runs after an `await`. The model records it at the point where the slot is set, so the hooks form a post-order. The ordering property proved (a hook runs after the hooks of the promises it awaited) holds for the awaited promises in either reading.
- Hook bodies. `init` and `onRegistryInitFinish` are author code. They are assumed not to call back into the registry, as the defaults do not. A hook that attaches items through the registry during `init` is not modelled inside the traversal, although `AttachToExtensionPoint` models that call on its own. Hook failures and returned values are not modelled.
- A missing dependency. In the source, reading `.state` of `undefined` throws inside the promise executor. The plugin's slot still receives its promise, which never settles, and `init` never returns. The model turns this into an explicit `MissingDependency` error: `init` stops at the first such name, the stage stays PluginsInitialisation, and no finish hook runs. Plugins later in the fan-out are not initialised in the model, although in the source their hooks may still run.
- Cyclic `requires`. The model requires a ghost rank that decreases along every edge, so it has no cyclic registrations at all. The source recurses without bound only when it enters a cycle whose slots are unset. Runs in which a set slot cuts every cycle do end in the source, and the rank precondition excludes them too. Examples are a second `init` after a first one set every slot, and a cycle reached only through a plugin whose executor already threw at a missing dependency.
- Item contents (`[key: string]: any`) are an opaque type. Handlers are total functions on it.
- `pluginOptions` is an arbitrary object in the source. Here it is a string-to-string map, stored and never read.
- `pluginName` and `requires` are writable public fields in the source. The registry never writes them, so they are `const` here (`requires` is spelled `required`). A plugin renamed after registration is not modelled.
- `Registry.PluginsRegistry.PluginInitialise` and `Registry.PluginsRegistry.Init` are split into helper methods: `NewPromise`, `ResolveDependencies`, `StorePromise`, `EnterStage`, `InitialisePlugins`, `InitialiseTurn` and `NotifyPlugins`. Each helper models one step of the source function. Ghost fields (`log`, `slots`) mirror the hook invocations and the plugins' `state` fields for the proofs.
- The behaviour of `init` follows the code: it does not check the current stage. A plugin whose slot was already set as a dependency is initialised again at its own top-level turn.
