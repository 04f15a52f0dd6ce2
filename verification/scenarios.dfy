/**
 Properties of sequences of operations: what the runtime and the supervisor
 do across several calls, stated for every input of the given shape.
 */
module Scenarios {
  import opened Common
  import opened Metadata
  import opened Providers
  import opened ModuleBase
  import opened Runtime
  import opened Cluster

  /** Every module is given as a bare class, so the constructor mounts each with `{}`. */
  predicate AllBareClasses(options: CoreOptions) {
    forall i :: 0 <= i < |ModuleSpecs(options)| ==> ModuleSpecs(options)[i].ModuleClass?
  }

  /** No descriptor of the Core carries an instance. */
  predicate NoInstances(c: Core) {
    forall i :: 0 <= i < |c.modules| ==> c.modules[i].instance.None?
  }

  /** A freshly built Core whose modules were all given as bare classes has no module instance. */
  lemma BareClassesMountWithoutInstances(statics: Statics, store: Store, options: CoreOptions)
    requires AllBareClasses(options)
    requires NewCore(statics, store, options).Ok?
    ensures NoInstances(NewCore(statics, store, options).value.core)
    ensures forall i :: 0 <= i < |ModuleSpecs(options)| ==>
      NewCore(statics, store, options).value.core.modules[i].moduleClass == ModuleSpecs(options)[i].cls
  {
  }

  /**
   When no descriptor has an instance, `init` logs "Module instance is not
   defined" once per descriptor, in order, leaves the list as it was and still
   emits `ready`.
   */
  lemma InitWithoutInstances(c: Core)
    requires !c.initialized && NoInstances(c)
    ensures Runtime.Init(c).modules == c.modules
    ensures NoInstances(Runtime.Init(c))
    ensures forall i :: 0 <= i < |c.modules| ==>
      Runtime.Init(c).trace[|c.trace| + i] == ModuleInitFailed(c.modules[i].moduleClass, ModuleInstanceNotDefined)
  {
  }

  /** `getModule` finds nothing in a Core without module instances. */
  lemma GetModuleWithoutInstances(c: Core, cls: ClassRef)
    requires NoInstances(c)
    ensures GetModule(c, cls).None?
  {
    match FindModule(c.modules, cls)
    case None =>
    case Some(i) =>
  }

  /**
   Nothing in the Core ever sets a descriptor's instance, so a Core configured
   with bare module classes logs "Module instance is not defined" for each of
   them, in order, emits `ready` anyway, and `getModule` finds no instance.
   */
  lemma MountedClassesNeverInitialize(statics: Statics, store: Store, options: CoreOptions)
    requires AllBareClasses(options)
    requires NewCore(statics, store, options).Ok?
    ensures
      var c := Runtime.Init(NewCore(statics, store, options).value.core);
      var specs := ModuleSpecs(options);
      && |c.trace| == |specs| + 1
      && (forall i :: 0 <= i < |specs| ==> c.trace[i] == ModuleInitFailed(specs[i].cls, ModuleInstanceNotDefined))
      && c.trace[|specs|] == Ready(c.self.id)
      && (forall cls :: GetModule(c, cls).None?)
  {
    var c0 := NewCore(statics, store, options).value.core;
    BareClassesMountWithoutInstances(statics, store, options);
    InitWithoutInstances(c0);
    var c := Runtime.Init(c0);
    var specs := ModuleSpecs(options);
    assert c0.trace == [] && |c0.modules| == |specs| && !c0.initialized;
    assert |c.trace| == |specs| + 1 && c.trace[|specs|] == Ready(c.self.id);
    forall i | 0 <= i < |specs|
      ensures c.trace[i] == ModuleInitFailed(specs[i].cls, ModuleInstanceNotDefined)
    {
      assert c.trace[|c0.trace| + i] == ModuleInitFailed(c0.modules[i].moduleClass, ModuleInstanceNotDefined);
    }
    forall cls ensures GetModule(c, cls).None? {
      GetModuleWithoutInstances(c, cls);
    }
  }

  /**
   The first Core constructed claims the singleton; a later construction does
   not replace it, and `getInstance` then returns the first Core.
   */
  lemma FirstCoreStaysSingleton(statics: Statics, store: Store, first: CoreOptions, second: CoreOptions)
    requires statics.instance.None?
    requires NewCore(statics, store, first).Ok?
    ensures
      var one := NewCore(statics, store, first).value;
      && one.statics.instance == Some(one.core.self.id)
      && (NewCore(one.statics, store, second).Ok? ==>
           NewCore(one.statics, store, second).value.statics.instance == Some(one.core.self.id))
      && GetInstance(one.statics, store, second) == Ok(Existing(one.core.self.id))
  {
  }

  /** Supervisor settings with the given worker count and auto-restart policy. */
  function PoolOptions(cpus: int, enabled: bool, delay: int): ClusterOptions {
    ClusterOptions(
      CoreOptions(None, None, None),
      Some(Settings(Some(cpus), Some(WorkerSettings(Some(AutoRestartSettings(Some(enabled), Some(delay))))))))
  }

  /** A fresh primary pool's `init` forks exactly `cpus` workers, then emits `ready`. */
  lemma PoolStarts(cpus: nat, enabled: bool, delay: int, host: int, statics: Statics, store: Store)
    requires cpus > 0
    ensures
      var s1 := Cluster.Init(NewSupervisor(PoolOptions(cpus, enabled, delay), Primary, host), statics, store).value.supervisor;
      && WellFormed(s1)
      && |s1.workers| == cpus
      && (forall k :: k in s1.workers <==> 1 <= k <= cpus)
      && |s1.trace| == cpus + 1
      && (forall i :: 0 <= i < cpus ==> s1.trace[i].WorkerInit?)
      && s1.trace[cpus] == ClusterReady
      && s1.exitListeners == 1 && s1.pending == multiset{}
      && (RestartEnabled(s1) <==> enabled) && RestartDelay(s1) == delay
  {
    var s0 := NewSupervisor(PoolOptions(cpus, enabled, delay), Primary, host);
    assert ForkCount(s0) == cpus;
  }

  /**
   In a well-formed pool with one exit listener and auto-restart on, killing a
   worker removes its entry at once and schedules one restart; the timer firing
   brings the table back to its former size.
   */
  lemma KilledWorkerIsReplaced(s1: Supervisor, id: nat, code: Option<int>, signal: Option<string>)
    requires WellFormed(s1) && id in s1.workers
    requires s1.exitListeners == 1 && s1.pending == multiset{} && RestartEnabled(s1)
    ensures
      var s2 := WorkerExit(s1, id, code, signal);
      var s3 := FireRestart(s2, RestartDelay(s1));
      && id !in s2.workers && |s2.workers| == |s1.workers| - 1
      && s2.pending == multiset{RestartDelay(s1)}
      && |s3.workers| == |s1.workers| && s3.pending == multiset{}
  {
    var s2 := WorkerExit(s1, id, code, signal);
    assert s2.workers == s1.workers - {id};
    assert |s2.workers| == |s1.workers| - 1 by {
      assert s1.workers.Keys == s2.workers.Keys + {id};
    }
    assert Restarts(RestartDelay(s1), 1) == multiset{RestartDelay(s1)};
    assert RestartDelay(s2) == RestartDelay(s1);
  }

  /**
   Four workers with auto-restart after 100 ms: `init` forks four workers and
   emits four `workerInit` then one `ready`; killing a worker removes its entry
   at once and schedules one restart, whose firing brings the table back to four.
   */
  lemma PoolRestartsKilledWorker(host: int, statics: Statics, store: Store, code: Option<int>, signal: Option<string>)
    ensures
      var s1 := Cluster.Init(NewSupervisor(PoolOptions(4, true, 100), Primary, host), statics, store).value.supervisor;
      var s2 := WorkerExit(s1, 1, code, signal);
      var s3 := FireRestart(s2, 100);
      && |s1.workers| == 4 && |s1.trace| == 5 && s1.trace[4] == ClusterReady
      && 1 !in s2.workers && |s2.workers| == 3 && s2.pending == multiset{100}
      && |s3.workers| == 4 && s3.pending == multiset{}
  {
    PoolStarts(4, true, 100, host, statics, store);
    var s1 := Cluster.Init(NewSupervisor(PoolOptions(4, true, 100), Primary, host), statics, store).value.supervisor;
    KilledWorkerIsReplaced(s1, 1, code, signal);
  }

  /** With auto-restart disabled a killed worker is removed, no restart is pending afterwards, and no timer can fire. */
  lemma DisabledPoolNeverReplaces(cpus: int, delay: int, host: int, statics: Statics, store: Store,
                                  id: nat, code: Option<int>, signal: Option<string>)
    ensures
      var s1 := Cluster.Init(NewSupervisor(PoolOptions(cpus, false, delay), Primary, host), statics, store).value.supervisor;
      var s2 := WorkerExit(s1, id, code, signal);
      && id !in s2.workers
      && s2.pending == multiset{}
      && forall d :: FireRestart(s2, d) == s2
  {
  }

  /** Exit code and signal never influence the table or the restart decision. */
  lemma ExitIgnoresCodeAndSignal(s: Supervisor, id: nat, c1: Option<int>, g1: Option<string>, c2: Option<int>, g2: Option<string>)
    ensures WorkerExit(s, id, c1, g1).workers == WorkerExit(s, id, c2, g2).workers
    ensures WorkerExit(s, id, c1, g1).pending == WorkerExit(s, id, c2, g2).pending
  {
  }

  /**
   Two `initPrimary` runs on an empty pool with auto-restart on fork the pool
   twice and install two exit listeners, so one exit schedules two restarts.
   */
  lemma InitPrimaryTwice(s0: Supervisor, code: Option<int>, signal: Option<string>)
    requires WellFormed(s0) && s0.workers == map[] && s0.exitListeners == 0 && s0.pending == multiset{}
    requires RestartEnabled(s0)
    ensures
      var s2 := InitPrimary(InitPrimary(s0));
      && |s2.workers| == 2 * ForkCount(s0)
      && s2.exitListeners == 2
      && WorkerExit(s2, 1, code, signal).pending == multiset{RestartDelay(s0), RestartDelay(s0)}
  {
    var d := RestartDelay(s0);
    var s1 := InitPrimary(s0);
    assert s1.options == s0.options;
    assert ForkCount(s1) == ForkCount(s0);
    assert |s1.workers| == ForkCount(s0) && WellFormed(s1);
    var s2 := InitPrimary(s1);
    assert |s2.workers| == |s1.workers| + ForkCount(s1);
    assert s2.options == s0.options && s2.exitListeners == 2 && s2.pending == multiset{};
    assert RestartEnabled(s2) && RestartDelay(s2) == d;
    var e := WorkerExit(s2, 1, code, signal);
    assert e.pending == multiset{} + Restarts(d, 2);
    assert Restarts(d, 2) == multiset{d, d};
  }

  /**
   `init` has no guard: calling it twice in the primary forks the pool twice
   and installs a second exit listener, so one exit then schedules two restarts.
   */
  lemma PrimaryInitTwice(cpus: nat, delay: int, host: int, statics: Statics, store: Store, code: Option<int>, signal: Option<string>)
    requires cpus > 0
    ensures
      var s0 := NewSupervisor(PoolOptions(cpus, true, delay), Primary, host);
      var s1 := Cluster.Init(s0, statics, store).value.supervisor;
      var s2 := Cluster.Init(s1, statics, store).value.supervisor;
      && |s2.workers| == 2 * cpus
      && s2.exitListeners == 2
      && WorkerExit(s2, 1, code, signal).pending == multiset{delay, delay}
  {
    var s0 := NewSupervisor(PoolOptions(cpus, true, delay), Primary, host);
    assert ForkCount(s0) == cpus && RestartEnabled(s0) && RestartDelay(s0) == delay;
    var s1 := InitPrimary(s0);
    assert Cluster.Init(s0, statics, store).value.supervisor == s1;
    assert s1.role.Primary?;
    assert Cluster.Init(s1, statics, store).value.supervisor == InitPrimary(s1);
    InitPrimaryTwice(s0, code, signal);
  }

  /** Events that reach a primary supervisor from the outside. */
  datatype PrimaryEvent =
    | Start                                                           // init()
    | Exit(id: nat, code: Option<int>, signal: Option<string>)        // a worker exits
    | Timer(delay: int)                                               // a restart timer fires

  function Step(s: Supervisor, e: PrimaryEvent): Supervisor {
    match e
    case Start => InitPrimary(s)
    case Exit(id, code, signal) => WorkerExit(s, id, code, signal)
    case Timer(delay) => FireRestart(s, delay)
  }

  function Run(s: Supervisor, events: seq<PrimaryEvent>): Supervisor
    decreases |events|
  {
    if |events| == 0 then s else Run(Step(s, events[0]), events[1..])
  }

  /**
   Whatever happens, every table entry stays keyed by its own worker's id, and
   worker ids are never handed out twice: `nextWorkerId` only grows.
   */
  lemma {:induction false} RunPreservesWellFormed(s: Supervisor, events: seq<PrimaryEvent>)
    requires WellFormed(s)
    ensures WellFormed(Run(s, events))
    ensures Run(s, events).nextWorkerId >= s.nextWorkerId
    decreases |events|
  {
    if |events| > 0 {
      var next := Step(s, events[0]);
      assert WellFormed(next) && next.nextWorkerId >= s.nextWorkerId;
      RunPreservesWellFormed(next, events[1..]);
    }
  }

  /**
   With auto-restart disabled and nothing pending, no restart is ever pending,
   whatever sequence of init calls, exits and timer firings follows, and the
   settings never change.
   */
  lemma {:induction false} DisabledRunNeverSchedules(s: Supervisor, events: seq<PrimaryEvent>)
    requires !RestartEnabled(s) && s.pending == multiset{}
    ensures Run(s, events).pending == multiset{}
    ensures Run(s, events).options == s.options
    decreases |events|
  {
    if |events| > 0 {
      var next := Step(s, events[0]);
      assert next.options == s.options && next.pending == multiset{};
      DisabledRunNeverSchedules(next, events[1..]);
    }
  }
}
