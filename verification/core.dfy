/**
 The runtime (`Core`): the constructor's wiring, the ordered list of module
 descriptors, first-match module lookup, the guarded `init` that runs every
 module's `init` in registration order while containing each failure, and the
 process-wide `Core.instance` singleton.

 Events the Core emits and errors it logs are appended to `trace`.
 */
module Runtime {
  import opened Common
  import opened Metadata
  import opened Providers
  import opened ModuleBase

  /** The `Core` class, the token the Core registers itself under. */
  const CoreClass := ClassRef(0, "Core", None)

  /**
   An element of `options.modules` or an argument of `registerModule`: a module
   class (it has the static `mount`) or a descriptor object (it has none).
   */
  datatype ModuleSpec = ModuleClass(cls: ClassRef) | Descriptor(descriptor: MountedModule)

  /** `CoreOptions`, with the `meta` object the clustered worker adds (the Core never reads it). */
  datatype CoreOptions = CoreOptions(
    modules: Option<seq<ModuleSpec>>,
    providers: Option<seq<ClassRef>>,
    meta: Option<map<string, Json>>)

  /** What a Core emits, and the one error log it writes. */
  datatype CoreEvent =
    | ModuleInit(instance: ModuleInstance)                // emit('moduleInit', instance)
    | ModuleInitFailed(moduleClass: ClassRef, error: Error) // the error logged when a module fails
    | Ready(core: nat)                                     // emit('ready', core)

  /** A Core object: itself as a registry entry, its flags, storage, module list, registry and trace. */
  datatype Core = Core(
    self: Instance,
    initialized: bool,
    storage: map<string, Json>,
    modules: seq<MountedModule>,
    providers: Registry,
    trace: seq<CoreEvent>)

  /** Process-wide state: the `Core.instance` static (a Core's identity) and the next free object identity. */
  datatype Statics = Statics(instance: Option<nat>, nextObject: nat)

  /** A Core just constructed, with the process-wide state after its construction. */
  datatype Constructed = Constructed(core: Core, statics: Statics)

  /** What `Core.getInstance` hands back: the existing singleton, or a Core it had to construct. */
  datatype Fetched = Existing(id: nat) | Created(constructed: Constructed)

  function ModuleSpecs(options: CoreOptions): seq<ModuleSpec> {
    options.modules.GetOr([])
  }

  function ProviderList(options: CoreOptions): seq<ClassRef> {
    options.providers.GetOr([])
  }

  /** The descriptor `registerModule` stores for a spec. */
  function DescriptorOf(spec: ModuleSpec): (d: MountedModule)
    ensures spec.ModuleClass? ==> d.moduleClass == spec.cls && d.options == EmptyObject && d.token.None? && d.instance.None?
    ensures spec.Descriptor? ==> d == spec.descriptor
  {
    match spec
    case ModuleClass(cls) => Mount(cls, EmptyObject, None)
    case Descriptor(descriptor) => descriptor
  }

  /**
   `registerModule(spec)`: appends exactly one descriptor and changes nothing
   else. A module class is stored as `mount({})`; a descriptor as it is.
   There is no marker check.
   */
  function RegisterModule(c: Core, spec: ModuleSpec): (r: Core)
    ensures |r.modules| == |c.modules| + 1
    ensures r.modules[..|c.modules|] == c.modules
    ensures spec.ModuleClass? ==> r.modules[|c.modules|] == Mount(spec.cls, EmptyObject, None)
    ensures spec.Descriptor? ==> r.modules[|c.modules|] == spec.descriptor
    ensures r == c.(modules := r.modules)
  {
    c.(modules := c.modules + [DescriptorOf(spec)])
  }

  /** The constructor's `for (const module of options.modules) this.registerModule(module)`. */
  function RegisterModules(c: Core, specs: seq<ModuleSpec>): (r: Core)
    ensures |r.modules| == |c.modules| + |specs|
    ensures r.modules[..|c.modules|] == c.modules
    ensures forall i :: 0 <= i < |specs| ==> r.modules[|c.modules| + i] == DescriptorOf(specs[i])
    ensures r == c.(modules := r.modules)
    decreases |specs|
  {
    if |specs| == 0 then c
    else
      var next := RegisterModule(c, specs[0]);
      var r := RegisterModules(next, specs[1..]);
      r
  }

  /** Every listed provider carries the flag `register` checks. */
  predicate AllMarked(store: Store, ps: seq<ClassRef>) {
    forall p :: p in ps ==> IsMarkedProvider(store, p)
  }

  /**
   The constructor's `for (const provider of options.providers) this.providers.register(provider)`:
   it throws at the first unmarked provider; on success every listed provider
   has an entry, one more object identity is used per provider, and entries of
   unlisted tokens are untouched.
   */
  function RegisterProviders(reg: Registry, store: Store, ps: seq<ClassRef>): (r: Result<Registry>)
    ensures r.Err? <==> !AllMarked(store, ps)
    ensures r.Err? ==> r.error == InvalidProvider
    ensures r.Ok? ==> r.value.next == reg.next + |ps|
    ensures r.Ok? ==> forall t :: t in r.value.entries <==> t in reg.entries || t in ps
    ensures r.Ok? ==> forall t :: t in reg.entries && t !in ps ==> r.value.entries[t] == reg.entries[t]
    ensures r.Ok? && Allocated(reg) ==> Allocated(r.value)
    decreases |ps|
  {
    if |ps| == 0 then Ok(reg)
    else
      match Register(reg, store, ps[0])
      case Err(e) =>
        assert !IsMarkedProvider(store, ps[0]);
        Err(e)
      case Ok(built) =>
        var rest := RegisterProviders(built.registry, store, ps[1..]);
        assert ps == [ps[0]] + ps[1..];
        assert AllMarked(store, ps) <==> AllMarked(store, ps[1..]);
        rest
  }

  /**
   Registering a list is registering a prefix of it and then the rest: the
   loop has no state besides the registry it threads through.
   */
  lemma {:induction false} RegisterProvidersSplit(reg: Registry, store: Store, ps: seq<ClassRef>, k: nat)
    requires k <= |ps|
    requires RegisterProviders(reg, store, ps).Ok?
    ensures RegisterProviders(reg, store, ps[..k]).Ok?
    ensures RegisterProviders(reg, store, ps) ==
      RegisterProviders(RegisterProviders(reg, store, ps[..k]).value, store, ps[k..])
    decreases k
  {
    if k == 0 {
      assert ps[..0] == [] && ps[0..] == ps;
    } else {
      assert ps[0] in ps;
      RegisterProvidersFirst(reg, store, ps);
      var next := Register(reg, store, ps[0]).value.registry;
      RegisterProvidersSplit(next, store, ps[1..], k - 1);
      PrefixOfTail(ps, k);
      RegisterProvidersFirst(reg, store, ps[..k]);
    }
  }

  /** How the prefix and suffix at k relate to those of the tail at k - 1. */
  lemma PrefixOfTail<T>(s: seq<T>, k: nat)
    requires 0 < k <= |s|
    ensures s[..k][0] == s[0] && s[..k][1..] == s[1..][..k - 1]
    ensures s[1..][k - 1..] == s[k..]
  {
  }

  /** The first provider of a non-empty list is registered first, into the registry given. */
  lemma RegisterProvidersFirst(reg: Registry, store: Store, ps: seq<ClassRef>)
    requires |ps| > 0 && IsMarkedProvider(store, ps[0])
    ensures Register(reg, store, ps[0]).Ok?
    ensures RegisterProviders(reg, store, ps) == RegisterProviders(Register(reg, store, ps[0]).value.registry, store, ps[1..])
  {
  }

  /**
   Providers are registered in list order: the object stored for a provider is
   the one built at its LAST position k in the list, with identity `reg.next + k`,
   and it was constructed from the registry as the providers before position k
   left it, so it sees those and none listed after it.
   */
  lemma {:induction false} RegisterProvidersInOrder(reg: Registry, store: Store, ps: seq<ClassRef>, k: nat)
    requires RegisterProviders(reg, store, ps).Ok?
    requires k < |ps| && ps[k] !in ps[k + 1..]
    ensures RegisterProviders(reg, store, ps[..k]).Ok?
    ensures ConstructedFrom(RegisterProviders(reg, store, ps[..k]).value, store, ps[k],
                            RegisterProviders(reg, store, ps).value.entries[ps[k]])
    ensures RegisterProviders(reg, store, ps).value.entries[ps[k]].id == reg.next + k
  {
    RegisterProvidersSplit(reg, store, ps, k);
    var mid := RegisterProviders(reg, store, ps[..k]).value;
    var rest := ps[k..];
    assert rest[0] == ps[k] && rest[1..] == ps[k + 1..];
    var built := Register(mid, store, ps[k]).value;
    assert RegisterProviders(mid, store, rest) == RegisterProviders(built.registry, store, ps[k + 1..]);
  }

  /** The registry the providers are registered into: the Core's own entry only. */
  function CoreOnlyRegistry(statics: Statics): Registry {
    RegisterInstance(Registry(map[], statics.nextObject + 1), CoreClass, Instance(statics.nextObject, CoreClass, []))
  }

  /**
   `new Core(options)`: registers the Core itself under `Core`, then the
   modules in order, then the providers in order (throwing "Invalid provider"
   at the first unmarked one), and finally claims the singleton slot if it is
   still empty. A construction that throws leaves the process state alone.
   */
  function NewCore(statics: Statics, store: Store, options: CoreOptions): (r: Result<Constructed>)
    ensures r.Err? <==> !AllMarked(store, ProviderList(options))
    ensures r.Err? ==> r.error == InvalidProvider
    ensures r.Ok? ==>
      var c := r.value.core;
      && c.self == Instance(statics.nextObject, CoreClass, [])
      && !c.initialized && c.storage == map[] && c.trace == []
      && |c.modules| == |ModuleSpecs(options)|
      && (forall i :: 0 <= i < |ModuleSpecs(options)| ==> c.modules[i] == DescriptorOf(ModuleSpecs(options)[i]))
      && (CoreClass !in ProviderList(options) ==> Resolve(c.providers, CoreClass) == Some(c.self))
      && (forall t :: t in c.providers.entries <==> t == CoreClass || t in ProviderList(options))
      && Allocated(c.providers)
    ensures r.Ok? ==> r.value.statics.instance == (if statics.instance.None? then Some(statics.nextObject) else statics.instance)
    ensures r.Ok? ==> r.value.statics.nextObject == r.value.core.providers.next > statics.nextObject
  {
    var self := Instance(statics.nextObject, CoreClass, []);
    var registry := RegisterInstance(Registry(map[], statics.nextObject + 1), CoreClass, self);
    var withModules := RegisterModules(Core(self, false, map[], [], registry, []), ModuleSpecs(options));
    match RegisterProviders(withModules.providers, store, ProviderList(options))
    case Err(e) => Err(e)
    case Ok(providers) =>
      var singleton := if statics.instance.None? then Some(self.id) else statics.instance;
      Ok(Constructed(withModules.(providers := providers), Statics(singleton, providers.next)))
  }

  /** The constructor registers the Core before any provider: the providers are registered into the Core-only registry. */
  lemma NewCoreRegistersCoreFirst(statics: Statics, store: Store, options: CoreOptions)
    requires NewCore(statics, store, options).Ok?
    ensures RegisterProviders(CoreOnlyRegistry(statics), store, ProviderList(options)).Ok?
    ensures NewCore(statics, store, options).value.core.providers ==
      RegisterProviders(CoreOnlyRegistry(statics), store, ProviderList(options)).value
  {
    var self := Instance(statics.nextObject, CoreClass, []);
    var withModules := RegisterModules(Core(self, false, map[], [], CoreOnlyRegistry(statics), []), ModuleSpecs(options));
    assert withModules.providers == CoreOnlyRegistry(statics);
  }

  /**
   Each provider is built from a registry that already holds the Core and the
   providers listed before it, and nothing listed after it: its i-th argument
   is defined exactly when the i-th declared type is `Core` or an earlier
   provider. It is the Core itself (unless a provider replaced that entry),
   or the very instance the Core keeps for that earlier provider when the
   list does not register it again later.
   */
  lemma {:induction false} ProvidersSeeCoreAndEarlierOnes(statics: Statics, store: Store, options: CoreOptions, k: nat, i: nat)
    requires AllMarked(store, ProviderList(options))
    requires k < |ProviderList(options)| && ProviderList(options)[k] !in ProviderList(options)[k + 1..]
    requires i < |ParamTypes(store, ProviderList(options)[k])|
    ensures
      var ps := ProviderList(options);
      var c := NewCore(statics, store, options).value.core;
      var x := c.providers.entries[ps[k]];
      var t := ParamTypes(store, ps[k])[i];
      && |x.injected| == |ParamTypes(store, ps[k])|
      && (x.injected[i].Some? <==> t == CoreClass || t in ps[..k])
      && (t == CoreClass && t !in ps[..k] ==> x.injected[i] == Some(c.self))
      && (t in ps[..k] && t !in ps[k..] ==> x.injected[i] == Some(c.providers.entries[t]))
  {
    var ps := ProviderList(options);
    var c := NewCore(statics, store, options).value.core;
    var r0 := CoreOnlyRegistry(statics);
    NewCoreRegistersCoreFirst(statics, store, options);
    RegisterProvidersInOrder(r0, store, ps, k);
    RegisterProvidersSplit(r0, store, ps, k);
    var mid := RegisterProviders(r0, store, ps[..k]).value;
    var t := ParamTypes(store, ps[k])[i];
    assert c.providers.entries[ps[k]].injected[i] == Resolve(mid, t);
    assert c.providers == RegisterProviders(mid, store, ps[k..]).value;
  }

  /** A provider whose constructor takes the Core receives the Core under construction. */
  lemma CoreVisibleToProvider(statics: Statics, store: Store, options: CoreOptions, k: nat)
    requires AllMarked(store, ProviderList(options))
    requires k < |ProviderList(options)| && ProviderList(options)[k] !in ProviderList(options)[k + 1..]
    requires CoreClass !in ProviderList(options)
    requires ParamTypes(store, ProviderList(options)[k]) == [CoreClass]
    ensures
      var c := NewCore(statics, store, options).value.core;
      c.providers.entries[ProviderList(options)[k]].injected == [Some(c.self)]
  {
    ProvidersSeeCoreAndEarlierOnes(statics, store, options, k, 0);
  }

  /** The Core never reads `meta`: constructing it with other metadata gives the same Core and process state. */
  lemma NewCoreIgnoresMeta(statics: Statics, store: Store, options: CoreOptions, meta: Option<map<string, Json>>)
    ensures NewCore(statics, store, options.(meta := meta)) == NewCore(statics, store, options)
  {
    assert ModuleSpecs(options.(meta := meta)) == ModuleSpecs(options);
    assert ProviderList(options.(meta := meta)) == ProviderList(options);
  }

  /** `Core.getInstance(options)`: the singleton when there is one, else a new Core, which becomes it. */
  function GetInstance(statics: Statics, store: Store, options: CoreOptions): (r: Result<Fetched>)
    ensures statics.instance.Some? ==> r == Ok(Existing(statics.instance.value))
    ensures statics.instance.None? && r.Ok? ==>
      r.value.Created? && r.value.constructed.statics.instance == Some(r.value.constructed.core.self.id)
    ensures statics.instance.None? ==> (r.Err? <==> NewCore(statics, store, options).Err?)
    ensures statics.instance.None? && r.Ok? ==> r.value == Created(NewCore(statics, store, options).value)
  {
    match statics.instance
    case Some(id) => Ok(Existing(id))
    case None =>
      match NewCore(statics, store, options)
      case Err(e) => Err(e)
      case Ok(constructed) => Ok(Created(constructed))
  }

  /** The descriptor's module instance exists and its `init` returns normally. */
  predicate InitSucceeds(d: MountedModule) {
    d.instance.Some? && RunInit(d.instance.value).outcome.Returned?
  }

  /** One descriptor after one iteration of `initModules`, with the event that iteration produced. */
  datatype Step = Step(descriptor: MountedModule, event: CoreEvent)

  /**
   One iteration of `initModules`: a missing instance, or an `init` that throws,
   is caught and logged under the descriptor's class and leaves the descriptor
   as it was; otherwise the instance's `initialized` flag is set and
   `moduleInit` is emitted with it.
   */
  function InitModule(d: MountedModule): (r: Step)
    ensures r.event.ModuleInit? <==> InitSucceeds(d)
    ensures InitSucceeds(d) ==>
      && r.descriptor == d.(instance := Some(d.instance.value.(initialized := true)))
      && r.event == ModuleInit(r.descriptor.instance.value)
    ensures !InitSucceeds(d) ==> r.descriptor == d && r.event.ModuleInitFailed? && r.event.moduleClass == d.moduleClass
    ensures d.instance.None? ==> r.event == ModuleInitFailed(d.moduleClass, ModuleInstanceNotDefined)
    ensures d.instance.Some? && RunInit(d.instance.value).outcome.Threw? ==>
      r.event == ModuleInitFailed(d.moduleClass, Thrown(RunInit(d.instance.value).outcome.message))
  {
    match d.instance
    case None => Step(d, ModuleInitFailed(d.moduleClass, ModuleInstanceNotDefined))
    case Some(m) =>
      var done := RunInit(m);
      match done.outcome
      case Threw(message) => Step(d.(instance := Some(done.state)), ModuleInitFailed(d.moduleClass, Thrown(message)))
      case Returned =>
        var m' := done.state.(initialized := true);
        Step(d.(instance := Some(m')), ModuleInit(m'))
  }

  /** The descriptors after a pass of `initModules`, and the events it produced, in order. */
  datatype Pass = Pass(modules: seq<MountedModule>, events: seq<CoreEvent>)

  /**
   `initModules()`: visits every descriptor in registration order and produces
   exactly one event for each; a failure never stops the loop, and no
   descriptor's outcome depends on another's.
   */
  function InitModules(ds: seq<MountedModule>): (r: Pass)
    ensures |r.modules| == |ds| && |r.events| == |ds|
    ensures forall i :: 0 <= i < |ds| ==> r.modules[i] == InitModule(ds[i]).descriptor
    ensures forall i :: 0 <= i < |ds| ==> r.events[i] == InitModule(ds[i]).event
    decreases |ds|
  {
    if |ds| == 0 then Pass([], [])
    else
      var step := InitModule(ds[0]);
      var rest := InitModules(ds[1..]);
      Pass([step.descriptor] + rest.modules, [step.event] + rest.events)
  }

  /**
   `init()`: a no-op once `initialized` is set. Otherwise it runs the module
   pass, sets `initialized` and emits `ready` exactly once, last. The registry
   and storage are untouched.
   */
  function Init(c: Core): (r: Core)
    ensures c.initialized ==> r == c
    ensures !c.initialized ==>
      && r.initialized
      && r.self == c.self && r.providers == c.providers && r.storage == c.storage
      && |r.modules| == |c.modules|
      && (forall i :: 0 <= i < |c.modules| ==> r.modules[i] == InitModule(c.modules[i]).descriptor)
      && |r.trace| == |c.trace| + |c.modules| + 1
      && r.trace[..|c.trace|] == c.trace
      && (forall i :: 0 <= i < |c.modules| ==> r.trace[|c.trace| + i] == InitModule(c.modules[i]).event)
      && r.trace[|r.trace| - 1] == Ready(c.self.id)
      && (forall i :: |c.trace| <= i < |r.trace| - 1 ==> !r.trace[i].Ready?)
  {
    if c.initialized then c
    else
      var pass := InitModules(c.modules);
      var r := c.(modules := pass.modules, initialized := true, trace := c.trace + pass.events + [Ready(c.self.id)]);
      assert forall i :: |c.trace| <= i < |r.trace| - 1 ==> r.trace[i] == pass.events[i - |c.trace|];
      r
  }

  /** `i` is the position of the first descriptor whose class is `cls`. */
  predicate IsFirstMatch(ds: seq<MountedModule>, cls: ClassRef, i: int) {
    && 0 <= i < |ds|
    && ds[i].moduleClass == cls
    && forall j :: 0 <= j < i ==> ds[j].moduleClass != cls
  }

  /** `modules.find(m => m.constructor === cls)`, as a position. */
  function FindModule(ds: seq<MountedModule>, cls: ClassRef): (r: Option<nat>)
    ensures r.Some? ==> IsFirstMatch(ds, cls, r.value)
    ensures r.None? ==> forall j :: 0 <= j < |ds| ==> ds[j].moduleClass != cls
    decreases |ds|
  {
    if |ds| == 0 then None
    else if ds[0].moduleClass == cls then Some(0)
    else
      match FindModule(ds[1..], cls)
      case None => None
      case Some(i) => Some(i + 1)
  }

  /**
   `getModule(cls)`: the instance of the FIRST descriptor whose class is `cls`,
   undefined when there is none or that descriptor has no instance (a later
   descriptor of the same class is never consulted).
   */
  function GetModule(c: Core, cls: ClassRef): (r: Option<ModuleInstance>)
    ensures forall i :: IsFirstMatch(c.modules, cls, i) ==> r == c.modules[i].instance
    ensures (forall j :: 0 <= j < |c.modules| ==> c.modules[j].moduleClass != cls) ==> r.None?
  {
    match FindModule(c.modules, cls)
    case None => None
    case Some(i) => c.modules[i].instance
  }

  /** Calling `init()` a second time changes nothing. */
  lemma InitIdempotent(c: Core)
    ensures Init(Init(c)) == Init(c)
  {
  }

  /** The name a module reports (`getName()`) is the same before and after `init()`. */
  lemma InitKeepsModuleNames(c: Core, i: nat)
    requires i < |c.modules| && c.modules[i].instance.Some?
    ensures Init(c).modules[i].instance.Some?
    ensures GetName(Init(c).modules[i].instance.value) == GetName(c.modules[i].instance.value)
  {
    if !c.initialized {
      var d := c.modules[i];
      var after := InitModule(d).descriptor;
      assert Init(c).modules[i] == after;
      assert after.instance.Some?;
      assert after.instance.value.name == d.instance.value.name && after.instance.value.cls == d.instance.value.cls;
    }
  }

  /** `registerModule` and `init` never give a descriptor an instance it did not already have. */
  lemma InitKeepsInstancePresence(c: Core)
    ensures |Init(c).modules| == |c.modules|
    ensures forall i :: 0 <= i < |c.modules| ==> (Init(c).modules[i].instance.Some? <==> c.modules[i].instance.Some?)
    ensures forall i :: 0 <= i < |c.modules| ==> Init(c).modules[i].moduleClass == c.modules[i].moduleClass
  {
  }
}
