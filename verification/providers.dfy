/**
 The provider registry (`ProvidersService`): a flat map from a class token to
 the one instance that backs it, with positional, single-pass dependency
 resolution from a class's declared constructor-parameter types.
 */
module Providers {
  import opened Common
  import opened Metadata

  /**
   An object built by `new`. `id` is its identity; `injected` holds the
   constructor arguments the registry supplied positionally (empty for objects
   built elsewhere, such as the Core itself).
   */
  datatype Instance = Instance(id: nat, cls: ClassRef, injected: seq<Option<Instance>>)

  /** The registry's map, and the identity the next object it builds receives. */
  datatype Registry = Registry(entries: map<ClassRef, Instance>, next: nat)

  /** An object the registry built, with the registry after building it. */
  datatype Built = Built(instance: Instance, registry: Registry)

  /** Every object in the map was allocated before the next one the registry builds. */
  predicate Allocated(reg: Registry) {
    forall t :: t in reg.entries ==> reg.entries[t].id < reg.next
  }

  /** `resolve(token)`: the stored instance, or undefined. */
  function Resolve(reg: Registry, token: ClassRef): (r: Option<Instance>)
    ensures r.Some? <==> token in reg.entries
    ensures r.Some? ==> r.value == reg.entries[token]
  {
    if token in reg.entries then Some(reg.entries[token]) else None
  }

  /** `registerInstance(token, instance)`: an unconditional overwrite. */
  function RegisterInstance(reg: Registry, token: ClassRef, instance: Instance): (r: Registry)
    ensures Resolve(r, token) == Some(instance)
    ensures forall u :: u != token ==> Resolve(r, u) == Resolve(reg, u)
    ensures r.entries.Keys == reg.entries.Keys + {token}
    ensures r.next == reg.next
    ensures Allocated(reg) && instance.id < reg.next ==> Allocated(r)
  {
    reg.(entries := reg.entries[token := instance])
  }

  /** `unregister(token)`: removes the entry; nothing changes when there is none. */
  function Unregister(reg: Registry, token: ClassRef): (r: Registry)
    ensures Resolve(r, token) == None
    ensures forall u :: u != token ==> Resolve(r, u) == Resolve(reg, u)
    ensures token !in reg.entries ==> r == reg
    ensures r.next == reg.next
    ensures Allocated(reg) ==> Allocated(r)
  {
    var r := reg.(entries := reg.entries - {token});
    assert token !in reg.entries ==> r.entries == reg.entries;
    r
  }

  /**
   `resolveClasses(types)`: element i is what `resolve` gives for types[i]; a
   missing dependency comes through as undefined, never as an error.
   */
  function ResolveClasses(reg: Registry, types: seq<ClassRef>): (r: seq<Option<Instance>>)
    ensures |r| == |types|
    ensures forall i :: 0 <= i < |types| ==> (r[i].Some? <==> types[i] in reg.entries)
    ensures forall i :: 0 <= i < |types| && r[i].Some? ==> r[i].value == reg.entries[types[i]]
  {
    if |types| == 0 then []
    else [Resolve(reg, types[0])] + ResolveClasses(reg, types[1..])
  }

  /** `x` is a fresh object of class `cls` constructed from the dependencies `reg` resolves now. */
  predicate ConstructedFrom(reg: Registry, store: Store, cls: ClassRef, x: Instance) {
    && x.id == reg.next
    && x.cls == cls
    && x.injected == ResolveClasses(reg, ParamTypes(store, cls))
  }

  /**
   `initClassWithProviders(cls)`: constructs `cls` from its resolved parameter
   types. It does not touch the map; it only uses up one object identity.
   */
  function InitClassWithProviders(reg: Registry, store: Store, cls: ClassRef): (r: Built)
    ensures r.instance.id == reg.next && r.instance.cls == cls
    ensures |r.instance.injected| == |ParamTypes(store, cls)|
    ensures forall i :: 0 <= i < |ParamTypes(store, cls)| ==>
      r.instance.injected[i] == Resolve(reg, ParamTypes(store, cls)[i])
    ensures r.registry.entries == reg.entries
    ensures r.registry.next == reg.next + 1
    ensures Allocated(reg) ==> Allocated(r.registry)
    ensures Allocated(reg) ==> forall t :: t in reg.entries ==> reg.entries[t] != r.instance
  {
    Built(Instance(reg.next, cls, ResolveClasses(reg, ParamTypes(store, cls))), reg.(next := reg.next + 1))
  }

  /** The class, or a class it extends, carries a truthy 'provider:isProvider' flag. */
  predicate IsMarkedProvider(store: Store, p: ClassRef) {
    GetFlag(store, IS_PROVIDER_KEY, p) == Some(true)
  }

  /**
   The nearest class on the chain of `p` that defines 'provider:isProvider'
   decides: a class's own flag overrides its bases, a class with no such flag
   anywhere on its chain is not a provider, and a provider has a true flag
   somewhere on its chain.
   */
  lemma MarkedProviderNearest(store: Store, p: ClassRef, i: int)
    requires NearestFlag(store, IS_PROVIDER_KEY, p, i)
    ensures IsMarkedProvider(store, p) <==> OwnFlag(store, IS_PROVIDER_KEY, Lineage(p)[i]) == Some(true)
    ensures OwnFlag(store, IS_PROVIDER_KEY, p).Some? ==>
      (IsMarkedProvider(store, p) <==> OwnFlag(store, IS_PROVIDER_KEY, p) == Some(true))
    ensures IsMarkedProvider(store, p) ==>
      exists c :: c in Lineage(p) && OwnFlag(store, IS_PROVIDER_KEY, c) == Some(true)
  {
    GetFlagNearest(store, IS_PROVIDER_KEY, p, i);
    if OwnFlag(store, IS_PROVIDER_KEY, p).Some? {
      GetFlagNearest(store, IS_PROVIDER_KEY, p, 0);
    }
  }

  /**
   `register(p)`: rejects a class without the 'provider:isProvider' flag and
   leaves the map alone; otherwise constructs a NEW instance (even when `p` is
   already registered) and stores it under `p`, overwriting. Only `p` is added:
   its dependencies are looked up, never registered.
   */
  function Register(reg: Registry, store: Store, p: ClassRef): (r: Result<Built>)
    ensures r.Err? <==> !IsMarkedProvider(store, p)
    ensures r.Err? ==> r.error == InvalidProvider
    ensures r.Ok? ==> ConstructedFrom(reg, store, p, r.value.instance)
    ensures r.Ok? ==> Resolve(r.value.registry, p) == Some(r.value.instance)
    ensures r.Ok? ==> forall u :: u != p ==> Resolve(r.value.registry, u) == Resolve(reg, u)
    ensures r.Ok? ==> r.value.registry.entries.Keys == reg.entries.Keys + {p}
    ensures r.Ok? ==> r.value.registry.next == reg.next + 1
    ensures r.Ok? && Allocated(reg) ==> Allocated(r.value.registry)
    ensures r.Ok? && Allocated(reg) && p in reg.entries ==> reg.entries[p] != r.value.instance
  {
    if !IsMarkedProvider(store, p) then Err(InvalidProvider)
    else
      var built := InitClassWithProviders(reg, store, p);
      Ok(Built(built.instance, RegisterInstance(built.registry, p, built.instance)))
  }

  /** After `registerInstance(t, x)`, `resolve(t)` is x, and `unregister(t)` makes it undefined again. */
  lemma RegisterInstanceThenUnregister(reg: Registry, t: ClassRef, x: Instance)
    ensures Resolve(RegisterInstance(reg, t, x), t) == Some(x)
    ensures Resolve(Unregister(RegisterInstance(reg, t, x), t), t) == None
    ensures t !in reg.entries ==> Unregister(RegisterInstance(reg, t, x), t) == reg
  {
    if t !in reg.entries {
      assert reg.entries[t := x] - {t} == reg.entries;
    }
  }

  /**
   `register` is not idempotent: registering the same provider twice stores a
   second, different instance, built against the registry as it is then.
   */
  lemma RegisterTwiceReplaces(reg: Registry, store: Store, p: ClassRef)
    requires Allocated(reg)
    requires IsMarkedProvider(store, p)
    ensures Register(reg, store, p).Ok?
    ensures Register(Register(reg, store, p).value.registry, store, p).Ok?
    ensures
      var first := Register(reg, store, p).value;
      var second := Register(first.registry, store, p).value;
      && second.instance != first.instance
      && Resolve(second.registry, p) == Some(second.instance)
      && second.registry.entries.Keys == first.registry.entries.Keys
  {
  }

  /**
   Resolution is single-pass: when `a` depends on `b` and `b` is registered
   after `a`, the instance stored for `a` keeps an undefined argument.
   */
  lemma LateDependencyNotPickedUp(reg: Registry, store: Store, a: ClassRef, b: ClassRef)
    requires a != b
    requires b !in reg.entries
    requires ParamTypes(store, a) == [b]
    requires IsMarkedProvider(store, a) && IsMarkedProvider(store, b)
    ensures Register(reg, store, a).Ok?
    ensures Register(Register(reg, store, a).value.registry, store, b).Ok?
    ensures
      var afterA := Register(reg, store, a).value.registry;
      var afterB := Register(afterA, store, b).value.registry;
      && Resolve(afterB, a).Some?
      && Resolve(afterB, a).value.injected == [None]
      && Resolve(afterB, b).Some?
  {
  }

  /**
   A class that only carries `@Provider()` is rejected by `register`: the
   decorator writes 'zyro:provider', the registry reads 'provider:isProvider'.
   */
  lemma ProviderDecoratorIsRejected(reg: Registry, store: Store, p: ClassRef)
    requires forall c :: c in Lineage(p) ==> OwnFlag(store, IS_PROVIDER_KEY, c).None?
    ensures Register(reg, Provider(store, p), p) == Err(InvalidProvider)
  {
    DecoratorsLeaveRegistryFlag(store, p, p);
  }

  /**
   `@Inject` is never consulted: `register` reads 'provider:isProvider' and
   'design:paramtypes' only, so an injection on any class changes nothing that
   `register` does for any provider.
   */
  lemma InjectNotReadByRegister(reg: Registry, store: Store, target: ClassRef, index: nat, token: Token, p: ClassRef)
    ensures Register(reg, Inject(store, target, index, token), p) == Register(reg, store, p)
  {
    var injected := Inject(store, target, index, token);
    forall c ensures OwnFlag(injected, IS_PROVIDER_KEY, c) == OwnFlag(store, IS_PROVIDER_KEY, c) {
      if c != target {
        assert OwnMetadata(injected, c) == OwnMetadata(store, c);
      }
    }
    GetFlagDependsOnOwnFlags(injected, store, IS_PROVIDER_KEY, p);
    forall c ensures OwnMetadata(injected, c).paramTypes == OwnMetadata(store, c).paramTypes {
      if c != target {
        assert OwnMetadata(injected, c) == OwnMetadata(store, c);
      }
    }
    ParamTypesDependsOnOwn(injected, store, p);
  }
}
