# ZyroHub core — a Dafny model of the bootstrap runtime

This project models the sequential bookkeeping at the heart of the ZyroHub
bootstrap runtime and proves properties of it. Every state change is a pure
function over immutable values, and emitted events and logged errors are appended
to a trace. The model covers three parts:

- **The provider registry** (`ProvidersService`) and the decorator metadata that
  feeds it. The registry is a flat map from a class token to one instance. It
  offers lookup, unconditional overwrite, delete, positional dependency resolution
  from a class's declared parameter types, and `register`, which is guarded by a
  metadata flag. Reflected metadata is an explicit per-class record
  (`Metadata.ClassMetadata`). `@Provider()`, `@Injectable()` and `@Inject(token)`
  are writes to that record.
- **The runtime** (`Core`, `BaseModule`, `MountedModule`). This covers:
  - the constructor's wiring: the Core itself, then the modules, then the providers;
  - the ordered descriptor list and first-match `getModule`;
  - the guarded `init`, which runs every module's `init` in registration order and catches each failure;
  - the process-wide `Core.instance` singleton.
- **The cluster supervisor** (`ClusteredCore`). This covers:
  - settings defaulting;
  - the worker table (fork adds an entry, exit removes it);
  - the flat auto-restart policy;
  - the worker role, which builds its own Core from options tagged `meta.isWorker`, a tag the Core drops.

  `cluster.fork` hands out the next worker id. Pending `setTimeout` restarts are
  a multiset of their delays.

Files: `common.dfy` (shared values), `metadata.dfy`, `providers.dfy`,
`module.dfy`, `core.dfy`, `cluster.dfy`, and `scenarios.dfy` (properties of
sequences of operations).

Behaviours of the code worth knowing:

- `register` is not idempotent. Every call constructs a new instance and
  overwrites the entry (`Providers.RegisterTwiceReplaces`).
- `register` checks the flag `'provider:isProvider'`, but `@Provider()` writes
  `'zyro:provider'`. So a class marked only with `@Provider()` is rejected
  (`Providers.ProviderDecoratorIsRejected`).
- `registerModule` performs no "is a module" marker check.
- There is no instantiation pass. Nothing in `Core` ever sets a descriptor's
  `instance`, so a module given as a bare class always hits "Module instance is
  not defined" (`Scenarios.MountedClassesNeverInitialize`).
- A module whose `init` fails is logged and skipped, not fatal. The loop
  continues, and `ready` is still emitted.
- There is no `shutdown` orchestration, no `resolveOrFail`/`getModuleOrFail`, and
  `getModule` takes no token.
- `@Inject(token)` records its token under `'zyro:inject'`, but `register`
  reads only `'provider:isProvider'` and `'design:paramtypes'`, so an injected
  token is never used (`Providers.InjectNotReadByRegister`).
- The worker's Core options carry `meta.isWorker = true`, but the Core
  constructor reads only `modules` and `providers` and keeps no options, so
  the worker's Core carries no such marker (`Runtime.NewCoreIgnoresMeta`).
- `ClusteredCore.init` has no idempotence guard. A second call in the primary forks
  the pool again and installs a second exit listener, so one exit then schedules
  two restarts (`Scenarios.PrimaryInitTwice`).

## Model

| member | source | states |
|---|---|---|
| `Metadata.GetFlag` | src/services/Providers.ts:11 | `Reflect.getMetadata` for a flag walks the class and its base classes; it is undefined exactly when no class on that chain defines the key, and otherwise it is the value some class on the chain defines |
| `Metadata.GetFlagNearest` | src/services/Providers.ts:11 | the flag lookup returns the value of the NEAREST class on the chain that defines the key, so a subclass's own flag overrides its bases |
| `Metadata.ParamTypes` | src/services/Providers.ts:14 | the declared parameter types are the class's own list when it has one, and `[]` when no class on its chain has one |
| `Metadata.ParamTypesNearest` | src/services/Providers.ts:14 | a class without its own parameter-type list gets the list of the nearest base class that has one |
| `Metadata.DefineFlag` | src/decorators/provider.ts:10 | `Reflect.defineMetadata(key, true, target)` sets the target's own flag under key to true and changes no other flag, metadata or class |
| `Metadata.Provider` | src/decorators/provider.ts:8-12 | `@Provider()` sets the target's own `'zyro:provider'` flag to true; every other flag, the param types, the inject map and every other class are unchanged |
| `Metadata.Injectable` | src/decorators/provider.ts:23-27 | `@Injectable()` sets the target's own `'zyro:injectable'` flag to true and changes nothing else |
| `Metadata.Inject` | src/decorators/provider.ts:14-20 | `@Inject(token)` at index i maps i to token in the target's OWN inject map (starting from `{}` when there is none) and keeps every other index and all other metadata |
| `Metadata.InjectLastWins` | src/decorators/provider.ts:17 | applying `@Inject` twice at one index leaves the same store as applying only the last one |
| `Metadata.InjectDistinctIndicesCommute` | src/decorators/provider.ts:16-19 | `@Inject` at two different indices records both, whatever the order |
| `Metadata.DecoratorsLeaveRegistryFlag` | src/decorators/provider.ts:8-27 | neither `@Provider()` nor `@Injectable()` changes what `'provider:isProvider'` resolves to for any class |
| `Providers.Resolve` | src/services/Providers.ts:6-8 | lookup is defined exactly for stored tokens and returns the stored instance |
| `Providers.RegisterInstance` | src/services/Providers.ts:23-25 | after `registerInstance(t, x)`, `resolve(t)` is x, every other token resolves as before, and the key set gains exactly t |
| `Providers.Unregister` | src/services/Providers.ts:27-29 | after `unregister(t)`, `resolve(t)` is undefined and every other token resolves as before; an absent token leaves the registry unchanged |
| `Providers.RegisterInstanceThenUnregister` | src/services/Providers.ts:23-29 | register-then-unregister makes the token undefined again and, for a token that was absent, restores the original registry |
| `Providers.ResolveClasses` | src/services/Providers.ts:31-33 | the result has the parameter list's length; element i is present exactly when `types[i]` is registered, and then it is that instance; a missing dependency is undefined, not an error |
| `Providers.InitClassWithProviders` | src/services/Providers.ts:35-40 | builds a fresh object of the class whose i-th argument is `resolve` of the i-th declared type; the map is unchanged |
| `Providers.MarkedProviderNearest` | src/services/Providers.ts:11-12 | `register`'s check accepts a class exactly when the nearest class on its chain that defines `'provider:isProvider'` sets it to true; a class's own flag decides whatever its bases say |
| `Providers.Register` | src/services/Providers.ts:10-21 | fails with "Invalid provider" exactly when the `'provider:isProvider'` flag is not true, and then changes nothing; otherwise it stores a fresh instance built from the currently resolved dependencies under p, adds only p to the keys and leaves other tokens alone |
| `Providers.InjectNotReadByRegister` | src/services/Providers.ts:10-21 | an `@Inject` on any class leaves the outcome of `register` unchanged for every provider: the registry never reads `'zyro:inject'` |
| `Providers.RegisterTwiceReplaces` | src/services/Providers.ts:17-20 | a second `register(p)` stores a different instance than the first, with the same key set |
| `Providers.LateDependencyNotPickedUp` | src/services/Providers.ts:14-19 | when a's dependency b is registered after a, the instance stored for a keeps an undefined argument |
| `Providers.ProviderDecoratorIsRejected` | src/services/Providers.ts:10-12 | a class whose chain never defined `'provider:isProvider'` is rejected by `register` even after `@Provider()` |
| `ModuleBase.NewModule` | src/components/Module.ts:15-21 | a freshly constructed module has `initialized = false` |
| `ModuleBase.GetName` | src/components/Module.ts:23-25 | returns `name` when it is a non-empty string and the class name otherwise; it is empty only when the class name is |
| `ModuleBase.Mount` | src/components/Module.ts:27-37 | the descriptor has the receiving class, exactly the given options and token, and no instance |
| `ModuleBase.RunHook` | src/components/Module.ts:39-41 | awaiting a hook leaves the module as it was; an inherited hook returns normally, an overridden one ends as the override does |
| `ModuleBase.RunInit` | src/Core.ts:61 | `await module.instance.init(...)` ends as the module's own `init` does when it overrides one, and returns normally otherwise |
| `ModuleBase.RunShutdown` | src/components/Module.ts:41 | `await m.shutdown()` ends as the module's own `shutdown` does when it overrides one, and returns normally otherwise |
| `ModuleBase.InheritedHooksAreNoOps` | src/components/Module.ts:39-41 | the inherited `init` and `shutdown` return normally and leave the module unchanged |
| `Runtime.DescriptorOf` | src/Core.ts:81-85 | a module class becomes `mount({})` with no token or instance; a descriptor is kept as it is |
| `Runtime.RegisterModule` | src/Core.ts:80-86 | the module list grows by exactly one at the end, earlier entries and all other Core state unchanged |
| `Runtime.RegisterModules` | src/Core.ts:40-44 | the constructor appends one descriptor per given module, in the given order |
| `Runtime.RegisterProviders` | src/Core.ts:46-50 | the provider loop throws exactly when some listed provider is unmarked; on success every listed provider has an entry, one identity is used per provider, and unlisted tokens are untouched |
| `Runtime.RegisterProvidersSplit` | src/Core.ts:46-50 | registering a provider list is registering any prefix of it and then the rest |
| `Runtime.RegisterProvidersInOrder` | src/Core.ts:46-50 | providers are registered in list order: a provider's stored object is the one built at its last position k, with identity `next + k`, constructed from the registry as the providers before position k left it |
| `Runtime.NewCore` | src/Core.ts:35-53 | the Core registers itself under `Core`, then its modules in order, then its providers; it fails exactly when a provider is unmarked; it claims the singleton slot only when that slot is empty |
| `Runtime.NewCoreRegistersCoreFirst` | src/Core.ts:38-50 | the providers are registered into a registry that already holds the Core, and the modules do not touch it |
| `Runtime.ProvidersSeeCoreAndEarlierOnes` | src/Core.ts:38-49 | a provider's i-th argument is defined exactly when its i-th declared type is `Core` or a provider listed before it; it is the Core itself, or the instance the Core keeps for that earlier provider |
| `Runtime.CoreVisibleToProvider` | src/Core.ts:38-49 | a listed provider whose constructor takes the Core receives the Core being constructed |
| `Runtime.NewCoreIgnoresMeta` | src/Core.ts:35-53 | constructing a Core with different `meta` gives the same Core and the same process state |
| `Runtime.GetInstance` | src/Core.ts:94-96 | returns the existing singleton when there is one; otherwise exactly the Core `new Core(options)` builds, which becomes the singleton |
| `Runtime.InitModule` | src/Core.ts:56-76 | a missing instance or a throwing `init` is caught and logged under the descriptor's class, and the descriptor is unchanged; only an `init` that returns sets `initialized` and emits `moduleInit` |
| `Runtime.InitModules` | src/Core.ts:55-78 | visits every descriptor in registration order and produces exactly one event per descriptor; a failure never stops the loop |
| `Runtime.Init` | src/Core.ts:98-117 | a no-op once initialized; otherwise it runs the module pass, sets `initialized`, and emits `ready` exactly once, after every module event; the registry is untouched |
| `Runtime.InitIdempotent` | src/Core.ts:98-99 | a second `init()` changes nothing |
| `Runtime.InitKeepsModuleNames` | src/components/Module.ts:23-25 | every module reports the same `getName()` before and after the Core's `init` |
| `Runtime.InitKeepsInstancePresence` | src/Core.ts:55-78 | `init` never gives a descriptor an instance it did not have, and never changes its class |
| `Runtime.FindModule` | src/Core.ts:89 | `find` returns the first position whose class matches, or none when no descriptor matches |
| `Runtime.GetModule` | src/Core.ts:88-92 | returns the instance of the first descriptor whose class matches; undefined when none matches or that descriptor has no instance |
| `Cluster.DefaultSettings` | src/Cluster.ts:52-63 | `cpus` falls back to host parallelism exactly when missing or 0; `autoRestart` defaults to enabled with a 5000 ms delay, and user-given fields override the defaults |
| `Cluster.NewSupervisor` | src/Cluster.ts:49-64 | a new supervisor has the defaulted settings, the core options unchanged, an empty worker table, and no pending restarts |
| `Cluster.CpuCount` | src/Cluster.ts:99 | the worker count `initPrimary` reads is 0 exactly when the setting is missing or 0, and the given count otherwise |
| `Cluster.RestartEnabled` | src/Cluster.ts:115 | the exit listener restarts unless the auto-restart object or its `enabled` field is missing or false |
| `Cluster.RestartDelay` | src/Cluster.ts:120 | the timer delay is the configured `delay`; a missing one is recorded as 0, where Node would use 1 ms |
| `Cluster.SettingsAsRead` | src/Cluster.ts:52-63 | after the constructor's defaulting, auto-restart is off only for a user `enabled: false`, the delay is the user's or 5000 ms, and the fork count is the user's positive `cpus`, or the host's parallelism when `cpus` is missing or 0 |
| `Cluster.CreateWorker` | src/Cluster.ts:66-78 | adds exactly one entry `{id, process}`, keyed by the fresh id and with a matching id, and emits one `workerInit` |
| `Cluster.ForkWorkers` | src/Cluster.ts:101-103 | n forks add n fresh consecutive ids and n `workerInit` events in fork order |
| `Cluster.InitPrimary` | src/Cluster.ts:94-132 | forks max(cpus, 0) workers, installs one more exit listener, and emits `ready` once, after every `workerInit` |
| `Cluster.ExitListener` | src/Cluster.ts:105-122 | removes the exited worker's entry unconditionally; it schedules one restart with the configured delay exactly when auto-restart is enabled |
| `Cluster.RunExitListeners` | src/Cluster.ts:105-122 | n listener runs remove the entry once and schedule n restarts when enabled, none when disabled |
| `Cluster.WorkerExit` | src/Cluster.ts:105-121 | an exit removes the entry and leaves other entries unchanged; the restarts scheduled depend only on the policy and the number of listeners |
| `Cluster.FireRestart` | src/Cluster.ts:116-120 | a pending restart that fires is consumed and forks exactly one worker; with none pending nothing happens |
| `Cluster.WorkerCoreOptions` | src/Cluster.ts:81-87 | the worker's Core options carry `meta.isWorker = true`, keep every other meta key, and keep the modules and providers |
| `Cluster.InitWorker` | src/Cluster.ts:80-92 | the worker keeps, initialized, exactly the Core the user's core options build, with that construction's effect on `Core.instance`; it never touches the worker table, pending restarts or trace, and it fails exactly when a provider is unmarked |
| `Cluster.Init` | src/Cluster.ts:134-140 | runs exactly one of the primary path and the worker path, chosen by role |
| `Scenarios.BareClassesMountWithoutInstances` | src/Core.ts:40-44 | a Core built from bare module classes holds one descriptor per class, in order, none with an instance |
| `Scenarios.InitWithoutInstances` | src/Core.ts:55-76 | when no descriptor has an instance, `init` logs "Module instance is not defined" once per descriptor, in order, and leaves the list as it was |
| `Scenarios.GetModuleWithoutInstances` | src/Core.ts:88-92 | `getModule` finds nothing in a Core whose descriptors have no instance |
| `Scenarios.MountedClassesNeverInitialize` | src/Core.ts:55-76 | with bare module classes, `init` logs "Module instance is not defined" for each, in order, still emits `ready`, and `getModule` finds nothing |
| `Scenarios.FirstCoreStaysSingleton` | src/Core.ts:52 | the first Core constructed stays the singleton through later constructions, and `getInstance` returns it |
| `Scenarios.PoolStarts` | src/Cluster.ts:94-132 | a fresh primary with cpus workers forks ids 1..cpus, emits cpus `workerInit` then `ready`, and has one listener and no pending restarts |
| `Scenarios.KilledWorkerIsReplaced` | src/Cluster.ts:105-121 | with one listener and auto-restart on, an exit drops the table by one and schedules one restart; when that restart fires, the table is back to its former size |
| `Scenarios.PoolRestartsKilledWorker` | src/Cluster.ts:99-121 | four workers with a 100 ms auto-restart: four entries, then three after a kill with one restart pending, then four again |
| `Scenarios.DisabledPoolNeverReplaces` | src/Cluster.ts:115-121 | with auto-restart disabled, a killed worker is removed, no restart is pending afterwards, and no timer firing changes anything |
| `Scenarios.DisabledRunNeverSchedules` | src/Cluster.ts:105-121 | with auto-restart disabled and nothing pending, no restart is ever pending over any sequence of init calls, exits and timer firings |
| `Scenarios.ExitIgnoresCodeAndSignal` | src/Cluster.ts:105-121 | exit code and signal never affect the table or the restarts scheduled |
| `Scenarios.InitPrimaryTwice` | src/Cluster.ts:94-122 | two `initPrimary` runs on an empty pool fork it twice and install two exit listeners, so one exit schedules two restarts at the configured delay |
| `Scenarios.PrimaryInitTwice` | src/Cluster.ts:134-140 | a second `init` in the primary forks the pool again and installs a second listener, so one exit schedules two restarts |
| `Scenarios.RunPreservesWellFormed` | src/Cluster.ts:66-121 | over any sequence of init, exits and timer firings, each entry stays keyed by its own worker id, and worker ids are never reused |

## Left out

- Terminal logging, `ansicolor`, `ms` formatting and `Date.now` timing are presentation only. Only the error logs (module init failure, worker death) appear in the traces.
- `cluster.fork`, OS processes, `process.pid` and real `setTimeout` timing are left out. They become a worker-id counter starting at 1 (Node's numbering) and a multiset of pending restart delays, and Node's clamping of out-of-range delays is not modelled.
- `os.availableParallelism()` is an input parameter (`host`). `cluster.isPrimary` is an input parameter (`role`).
- The `reflect-metadata` runtime and TypeScript's `design:paramtypes` emission are left out; metadata is an explicit per-class record instead. A key holding a value of another shape (a non-array under `design:paramtypes`, for one) is not representable.
- EventEmitter listener dispatch is left out; the traces only record which events are emitted, and in what order.
- Async interleaving is left out. Calls are sequential. `Core.init` sets its flag only after the loop, so a second call made while the first is in flight is not guarded; the model makes no re-entrancy claim.
- Constructors are total: `new provider(...)` never throws in the model.
- An overridden module hook is modelled only by its outcome (returns or throws). Its other effects are not modelled. That includes registering further modules during `init`; the source's `for...of` loop would visit those too.
- Descriptors hold module instances by value. One instance object shared by two descriptors is not modelled.
- `ModuleBase.RunHook`: states only the outcome of an overridden hook. Its effects on the module are not modelled, because they are user code.
- The following are never read by the modelled code and are carried or omitted as noted:
  - `BaseModule.core` and `static options` are omitted;
  - `Core.storage` is carried but nothing reads it;
  - `meta` is carried in the Core options but the Core ignores it.
- Explicitly `undefined` properties are not modelled: an absent property and one present as `undefined` are the same. Non-integer numbers (a fractional or NaN `cpus`) are not modelled either.
- A module subclass that overrides the static `mount` is not modelled. `registerModule` is modelled as calling `BaseModule.mount`.
- `Cluster.RestartDelay` records an undefined delay as 0, where Node would use 1 ms. This case cannot arise after the constructor's defaulting.
- The `ClusteredCore` constructor writes the defaulted settings back into the caller's options object. In the model they live in the supervisor only.
- `@Inject` on method parameters, whose target is a prototype, is not modelled; only constructor parameters are.
- Object identities come from counters. They are unique within one Core's registry. Classes are assumed to have distinct ids.
- `src/decorators/module.ts` is not part of this model: it sets a flag that nothing in the modelled code reads.
- These features are not present in the code and are not modelled as present:
  - a module instantiation pass, `shutdown` orchestration and reverse-order teardown;
  - `resolveOrFail` and `getModuleOrFail`;
  - token-keyed `getModule`;
  - consumption of `@Inject` overrides;
  - a fatal exit on module init failure.
