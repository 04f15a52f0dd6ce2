/**
 The module contract of src/components/Module.ts: the `BaseModule` instance
 state, `getName`, the no-op lifecycle hooks, and the `MountedModule`
 descriptor that `mount` produces without constructing anything.
 */
module ModuleBase {
  import opened Common

  /** How an awaited lifecycle hook ends: it returns normally or throws. */
  datatype HookOutcome = Returned | Threw(message: string)

  /**
   A lifecycle hook as the module's class defines it: the no-op inherited from
   `BaseModule`, or a subclass override, of which only the outcome is modelled.
   */
  datatype Hook = Inherited | Overridden(outcome: HookOutcome)

  /**
   A `BaseModule` object: identity, class, the optional `name` field, the
   `initialized` flag and the `init`/`shutdown` hooks its class defines.
   */
  datatype ModuleInstance = ModuleInstance(
    id: nat,
    cls: ClassRef,
    name: Option<string>,
    initialized: bool,
    initHook: Hook,
    shutdownHook: Hook)

  /**
   A `MountedModule` descriptor: the module class (`constructor` in the
   source), the instance if someone supplied one, the options and the token.
   */
  datatype MountedModule = MountedModule(
    moduleClass: ClassRef,
    instance: Option<ModuleInstance>,
    options: Json,
    token: Option<Token>)

  /** A module as the two hooks leave it, with how the call ended. */
  datatype Completion = Completion(state: ModuleInstance, outcome: HookOutcome)

  /** `new C()` for a module class C: the field initialisers of `BaseModule`. */
  function NewModule(id: nat, cls: ClassRef, name: Option<string>, initHook: Hook, shutdownHook: Hook): (m: ModuleInstance)
    ensures !m.initialized
    ensures m.id == id && m.cls == cls && m.name == name
    ensures m.initHook == initHook && m.shutdownHook == shutdownHook
  {
    ModuleInstance(id, cls, name, false, initHook, shutdownHook)
  }

  /** `getName()`: `this.name || this.constructor.name`, so an empty name falls back too. */
  function GetName(m: ModuleInstance): (r: string)
    ensures m.name.Some? && m.name.value != "" ==> r == m.name.value
    ensures m.name.None? || m.name.value == "" ==> r == m.cls.name
    ensures r == "" ==> m.cls.name == ""
  {
    match m.name
    case Some(n) => if n != "" then n else m.cls.name
    case None => m.cls.name
  }

  /** `C.mount(options, token)`: records intent only; no instance is built. */
  function Mount(cls: ClassRef, options: Json, token: Option<Token>): (d: MountedModule)
    ensures d.moduleClass == cls
    ensures d.options == options && d.token == token
    ensures d.instance.None?
  {
    MountedModule(cls, None, options, token)
  }

  /** Awaiting one hook of `m`. */
  function RunHook(m: ModuleInstance, hook: Hook): (r: Completion)
    ensures r.state == m
    ensures hook.Inherited? ==> r.outcome == Returned
    ensures hook.Overridden? ==> r.outcome == hook.outcome
  {
    match hook
    case Inherited => Completion(m, Returned)
    case Overridden(outcome) => Completion(m, outcome)
  }

  /** `await m.init(...)`: the module's own `init` when it overrides one, else the inherited no-op. */
  function RunInit(m: ModuleInstance): (r: Completion)
    ensures r.state == m
    ensures m.initHook.Inherited? ==> r.outcome == Returned
    ensures m.initHook.Overridden? ==> r.outcome == m.initHook.outcome
  {
    RunHook(m, m.initHook)
  }

  /** `await m.shutdown()`: the module's own `shutdown` when it overrides one, else the inherited no-op. */
  function RunShutdown(m: ModuleInstance): (r: Completion)
    ensures r.state == m
    ensures m.shutdownHook.Inherited? ==> r.outcome == Returned
    ensures m.shutdownHook.Overridden? ==> r.outcome == m.shutdownHook.outcome
  {
    RunHook(m, m.shutdownHook)
  }

  /** The hooks `BaseModule` itself defines return normally and change nothing. */
  lemma InheritedHooksAreNoOps(m: ModuleInstance)
    ensures m.initHook.Inherited? ==> RunInit(m) == Completion(m, Returned)
    ensures m.shutdownHook.Inherited? ==> RunShutdown(m) == Completion(m, Returned)
  {
  }
}
