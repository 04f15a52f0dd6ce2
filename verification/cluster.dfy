/**
 The process supervisor (`ClusteredCore`): settings defaulting, the worker
 table, the primary's fork loop and flat auto-restart policy, and the worker
 role that builds and initialises its own Core.

 `cluster.fork` is modelled as handing out the next worker id, pending
 `setTimeout` restarts as a multiset of their delays, and emitted events and
 error logs as entries appended to `trace`.
 */
module Cluster {
  import opened Common
  import opened Metadata
  import opened Providers
  import opened Runtime

  /** The restart delay, in milliseconds, used when the settings give none. */
  const DEFAULT_RESTART_DELAY := 5000

  datatype AutoRestartSettings = AutoRestartSettings(enabled: Option<bool>, delay: Option<int>)

  datatype WorkerSettings = WorkerSettings(autoRestart: Option<AutoRestartSettings>)

  /** `ClusteredCoreOptionsSettings`; None stands for a property that is absent. */
  datatype Settings = Settings(cpus: Option<int>, workers: Option<WorkerSettings>)

  datatype ClusterOptions = ClusterOptions(core: CoreOptions, settings: Option<Settings>)

  /** `cluster.isPrimary` / `cluster.isWorker` for this process. */
  datatype Role = Primary | Worker

  /** The `cluster.Worker` object `fork` returns. */
  datatype WorkerHandle = WorkerHandle(id: nat)

  /** A worker-table entry `{ id, process }`. */
  datatype WorkerRecord = WorkerRecord(id: nat, process: WorkerHandle)

  /** What the supervisor emits, and the error it logs when a worker dies. */
  datatype ClusterEvent =
    | WorkerInit(worker: WorkerRecord)                                 // emit('workerInit', { worker })
    | WorkerDied(id: nat, code: Option<int>, signal: Option<string>)  // logged by the exit listener
    | ClusterReady                                                     // emit('ready', { clusteredCore })

  /**
   A `ClusteredCore`: its (defaulted) options, the process role, the worker
   table, the id the next forked worker receives, how many exit listeners the
   primary has installed, the pending restarts, the worker's own Core, and the
   trace.
   */
  datatype Supervisor = Supervisor(
    options: ClusterOptions,
    role: Role,
    workers: map<nat, WorkerRecord>,
    nextWorkerId: nat,
    exitListeners: nat,
    pending: multiset<int>,
    actualCore: Option<Core>,
    trace: seq<ClusterEvent>)

  /** A supervisor after `init`, with the process-wide Core state after it. */
  datatype Booted = Booted(supervisor: Supervisor, statics: Statics)

  /** `settings?.workers?.autoRestart`. */
  function UserAutoRestart(settings: Option<Settings>): Option<AutoRestartSettings> {
    if settings.Some? && settings.value.workers.Some? then settings.value.workers.value.autoRestart else None
  }

  /** `settings?.cpus` is missing or 0, the two cases `||` replaces. */
  predicate CpusMissing(settings: Option<Settings>) {
    settings.None? || settings.value.cpus.None? || settings.value.cpus.value == 0
  }

  /**
   The constructor's defaulting: `cpus` falls back to the host's parallelism
   when missing or 0; `autoRestart` starts from `{ enabled: true, delay: 5000 }`
   and every field the user gave overrides the default.
   */
  function DefaultSettings(settings: Option<Settings>, host: int): (r: Settings)
    ensures r.cpus.Some?
    ensures CpusMissing(settings) ==> r.cpus.value == host
    ensures !CpusMissing(settings) ==> r.cpus == settings.value.cpus
    ensures UserAutoRestart(Some(r)).Some?
    ensures UserAutoRestart(Some(r)).value.enabled ==
      (if UserAutoRestart(settings).Some? && UserAutoRestart(settings).value.enabled.Some?
       then UserAutoRestart(settings).value.enabled else Some(true))
    ensures UserAutoRestart(Some(r)).value.delay ==
      (if UserAutoRestart(settings).Some? && UserAutoRestart(settings).value.delay.Some?
       then UserAutoRestart(settings).value.delay else Some(DEFAULT_RESTART_DELAY))
  {
    var user := UserAutoRestart(settings);
    var cpus := if CpusMissing(settings) then host else settings.value.cpus.value;
    var enabled := if user.Some? && user.value.enabled.Some? then user.value.enabled.value else true;
    var delay := if user.Some? && user.value.delay.Some? then user.value.delay.value else DEFAULT_RESTART_DELAY;
    Settings(Some(cpus), Some(WorkerSettings(Some(AutoRestartSettings(Some(enabled), Some(delay))))))
  }

  /** `new ClusteredCore(options)` in a process of the given role on a host with `host` parallelism. */
  function NewSupervisor(options: ClusterOptions, role: Role, host: int): (s: Supervisor)
    ensures s.options.core == options.core
    ensures s.options.settings == Some(DefaultSettings(options.settings, host))
    ensures s.role == role
    ensures s.workers == map[] && s.pending == multiset{} && s.exitListeners == 0
    ensures s.actualCore.None? && s.trace == []
    ensures WellFormed(s)
  {
    Supervisor(options.(settings := Some(DefaultSettings(options.settings, host))), role, map[], 1, 0, multiset{}, None, [])
  }

  /** Every table entry is keyed by its own worker's id, and was handed out before `nextWorkerId`. */
  predicate WellFormed(s: Supervisor) {
    forall k :: k in s.workers ==> k < s.nextWorkerId && s.workers[k] == WorkerRecord(k, WorkerHandle(k))
  }

  /** `this.options.settings?.cpus || 0`, read by `initPrimary`: a missing count and 0 both read as 0. */
  function CpuCount(s: Supervisor): (r: int)
    ensures r == 0 <==> CpusMissing(s.options.settings)
    ensures r != 0 ==> s.options.settings.Some? && s.options.settings.value.cpus == Some(r)
  {
    var settings := s.options.settings;
    if settings.Some? && settings.value.cpus.Some? then settings.value.cpus.value else 0
  }

  /** The number of iterations of `for (let i = 0; i < cpuCount; i++)`. */
  function ForkCount(s: Supervisor): nat {
    if CpuCount(s) > 0 then CpuCount(s) else 0
  }

  /**
   `settings?.workers?.autoRestart?.enabled`, as the exit listener tests it:
   a missing object or flag is falsy just like `false`.
   */
  predicate RestartEnabled(s: Supervisor)
    ensures !RestartEnabled(s) <==>
      || UserAutoRestart(s.options.settings).None?
      || UserAutoRestart(s.options.settings).value.enabled.None?
      || UserAutoRestart(s.options.settings).value.enabled == Some(false)
  {
    var user := UserAutoRestart(s.options.settings);
    user.Some? && user.value.enabled.Some? && user.value.enabled.value
  }

  /**
   `settings?.workers?.autoRestart?.delay`, passed to `setTimeout`. A missing
   delay is recorded as 0; Node would use 1 ms.
   */
  function RestartDelay(s: Supervisor): (r: int)
    ensures UserAutoRestart(s.options.settings).Some? && UserAutoRestart(s.options.settings).value.delay.Some? ==>
      r == UserAutoRestart(s.options.settings).value.delay.value
    ensures UserAutoRestart(s.options.settings).None? || UserAutoRestart(s.options.settings).value.delay.None? ==> r == 0
  {
    var user := UserAutoRestart(s.options.settings);
    if user.Some? && user.value.delay.Some? then user.value.delay.value else 0
  }

  /**
   What the primary reads from the settings the constructor defaulted: auto-
   restart is off only when the user set `enabled: false`, the delay is the
   user's or 5000 ms, and the fork count is the user's positive `cpus`, or the
   host's parallelism when `cpus` is missing or 0.
   */
  lemma SettingsAsRead(options: ClusterOptions, role: Role, host: int)
    ensures
      var s := NewSupervisor(options, role, host);
      var user := UserAutoRestart(options.settings);
      var cpus := if CpusMissing(options.settings) then host else options.settings.value.cpus.value;
      && (!RestartEnabled(s) <==> user.Some? && user.value.enabled == Some(false))
      && RestartDelay(s) == (if user.Some? && user.value.delay.Some? then user.value.delay.value else DEFAULT_RESTART_DELAY)
      && ForkCount(s) == (if cpus > 0 then cpus else 0)
  {
  }

  /**
   `createWorker()`: forks one worker and adds exactly one table entry, keyed
   by the new worker's id, and emits one `workerInit` for it.
   */
  function CreateWorker(s: Supervisor): (r: Supervisor)
    ensures var id := s.nextWorkerId;
      && id in r.workers && r.workers[id] == WorkerRecord(id, WorkerHandle(id))
      && r.trace == s.trace + [WorkerInit(r.workers[id])]
    ensures r.nextWorkerId == s.nextWorkerId + 1
    ensures forall k :: k in r.workers <==> k in s.workers || k == s.nextWorkerId
    ensures forall k :: k in s.workers && k != s.nextWorkerId ==> r.workers[k] == s.workers[k]
    ensures WellFormed(s) ==> WellFormed(r) && s.nextWorkerId !in s.workers && |r.workers| == |s.workers| + 1
    ensures r == s.(workers := r.workers, nextWorkerId := r.nextWorkerId, trace := r.trace)
  {
    var id := s.nextWorkerId;
    var record := WorkerRecord(id, WorkerHandle(id));
    s.(workers := s.workers[id := record], nextWorkerId := id + 1, trace := s.trace + [WorkerInit(record)])
  }

  /** `n` calls of `createWorker()`: n fresh consecutive ids, n `workerInit` events in fork order. */
  function ForkWorkers(s: Supervisor, n: nat): (r: Supervisor)
    ensures r.nextWorkerId == s.nextWorkerId + n
    ensures forall k :: k in r.workers <==> k in s.workers || s.nextWorkerId <= k < s.nextWorkerId + n
    ensures forall k :: k in s.workers && !(s.nextWorkerId <= k < s.nextWorkerId + n) ==> r.workers[k] == s.workers[k]
    ensures |r.trace| == |s.trace| + n && r.trace[..|s.trace|] == s.trace
    ensures forall j :: |s.trace| <= j < |r.trace| ==>
      r.trace[j] == WorkerInit(WorkerRecord(s.nextWorkerId + (j - |s.trace|), WorkerHandle(s.nextWorkerId + (j - |s.trace|))))
    ensures WellFormed(s) ==> WellFormed(r) && |r.workers| == |s.workers| + n
    ensures r == s.(workers := r.workers, nextWorkerId := r.nextWorkerId, trace := r.trace)
    decreases n
  {
    if n == 0 then s
    else
      var once := CreateWorker(s);
      var r := ForkWorkers(once, n - 1);
      assert r.trace[|s.trace|] == r.trace[..|once.trace|][|s.trace|];
      r
  }

  /**
   `initPrimary()`: forks `cpus` workers (none when cpus is not positive),
   installs one more exit listener, then emits `ready` once, after every
   `workerInit`.
   */
  function InitPrimary(s: Supervisor): (r: Supervisor)
    ensures r.exitListeners == s.exitListeners + 1
    ensures r.nextWorkerId == s.nextWorkerId + ForkCount(s)
    ensures forall k :: k in r.workers <==> k in s.workers || s.nextWorkerId <= k < s.nextWorkerId + ForkCount(s)
    ensures |r.trace| == |s.trace| + ForkCount(s) + 1 && r.trace[..|s.trace|] == s.trace
    ensures forall i :: |s.trace| <= i < |r.trace| - 1 ==> r.trace[i].WorkerInit?
    ensures r.trace[|r.trace| - 1] == ClusterReady
    ensures WellFormed(s) ==> WellFormed(r) && |r.workers| == |s.workers| + ForkCount(s)
    ensures r.pending == s.pending && r.actualCore == s.actualCore && r.options == s.options && r.role == s.role
  {
    var forked := ForkWorkers(s, ForkCount(s));
    forked.(exitListeners := forked.exitListeners + 1, trace := forked.trace + [ClusterReady])
  }

  /**
   One run of the exit listener: the worker's entry is deleted whatever its
   exit code or signal, the death is logged, and when auto-restart is enabled
   one restart is scheduled after the configured delay.
   */
  function ExitListener(s: Supervisor, id: nat, code: Option<int>, signal: Option<string>): (r: Supervisor)
    ensures r.workers == s.workers - {id}
    ensures r.trace == s.trace + [WorkerDied(id, code, signal)]
    ensures RestartEnabled(s) ==> r.pending == s.pending + multiset{RestartDelay(s)}
    ensures !RestartEnabled(s) ==> r.pending == s.pending
    ensures r == s.(workers := r.workers, pending := r.pending, trace := r.trace)
  {
    var removed := s.(workers := s.workers - {id}, trace := s.trace + [WorkerDied(id, code, signal)]);
    if RestartEnabled(s) then removed.(pending := s.pending + multiset{RestartDelay(s)}) else removed
  }

  /** Copies of one delay: what `n` listeners that each schedule one restart add. */
  function Restarts(delay: int, n: nat): (m: multiset<int>)
    ensures m[delay] == n
    ensures forall d :: d != delay ==> m[d] == 0
  {
    multiset{}[delay := n]
  }

  /** `listeners` runs of the exit listener for one exit. */
  function RunExitListeners(s: Supervisor, id: nat, code: Option<int>, signal: Option<string>, listeners: nat): (r: Supervisor)
    ensures r.workers == if listeners == 0 then s.workers else s.workers - {id}
    ensures RestartEnabled(s) ==> r.pending == s.pending + Restarts(RestartDelay(s), listeners)
    ensures !RestartEnabled(s) ==> r.pending == s.pending
    ensures |r.trace| == |s.trace| + listeners && r.trace[..|s.trace|] == s.trace
    ensures r == s.(workers := r.workers, pending := r.pending, trace := r.trace)
    decreases listeners
  {
    if listeners == 0 then s
    else
      var once := ExitListener(s, id, code, signal);
      var r := RunExitListeners(once, id, code, signal, listeners - 1);
      assert once.workers - {id} == once.workers;
      assert Restarts(RestartDelay(s), listeners) == multiset{RestartDelay(s)} + Restarts(RestartDelay(s), listeners - 1);
      r
  }

  /**
   The cluster's 'exit' event for worker `id`, dispatched to every listener the
   primary installed. With the single listener one `initPrimary` installs, the
   entry is removed and at most one restart is scheduled.
   */
  function WorkerExit(s: Supervisor, id: nat, code: Option<int>, signal: Option<string>): (r: Supervisor)
    ensures s.exitListeners > 0 ==> r.workers == s.workers - {id}
    ensures forall k :: k != id && k in s.workers ==> k in r.workers && r.workers[k] == s.workers[k]
    ensures RestartEnabled(s) ==> r.pending == s.pending + Restarts(RestartDelay(s), s.exitListeners)
    ensures !RestartEnabled(s) ==> r.pending == s.pending
    ensures WellFormed(s) ==> WellFormed(r)
    ensures r.nextWorkerId == s.nextWorkerId && r.exitListeners == s.exitListeners && r.options == s.options
  {
    RunExitListeners(s, id, code, signal, s.exitListeners)
  }

  /**
   A pending restart timer with the given delay fires: it is consumed and one
   worker is forked. With no such timer pending nothing happens.
   */
  function FireRestart(s: Supervisor, delay: int): (r: Supervisor)
    ensures delay !in s.pending ==> r == s
    ensures delay in s.pending ==>
      && r.pending == s.pending - multiset{delay}
      && (forall k :: k in r.workers <==> k in s.workers || k == s.nextWorkerId)
      && r.trace == s.trace + [WorkerInit(WorkerRecord(s.nextWorkerId, WorkerHandle(s.nextWorkerId)))]
    ensures WellFormed(s) && delay in s.pending ==> |r.workers| == |s.workers| + 1
    ensures WellFormed(s) ==> WellFormed(r)
    ensures r.options == s.options && r.exitListeners == s.exitListeners
  {
    if delay in s.pending then CreateWorker(s.(pending := s.pending - multiset{delay})) else s
  }

  /** The worker's Core options: `{ ...core, meta: { ...core.meta, isWorker: true } }`. */
  function WorkerCoreOptions(options: CoreOptions): (r: CoreOptions)
    ensures r.modules == options.modules && r.providers == options.providers
    ensures r.meta.Some? && "isWorker" in r.meta.value && r.meta.value["isWorker"] == Bool(true)
    ensures forall k :: k != "isWorker" ==>
      (k in r.meta.value <==> options.meta.Some? && k in options.meta.value)
    ensures forall k :: k != "isWorker" && k in r.meta.value ==> r.meta.value[k] == options.meta.value[k]
  {
    options.(meta := Some(options.meta.GetOr(map[])["isWorker" := Bool(true)]))
  }

  /**
   `initWorker()`: builds a Core from the worker options, keeps it as
   `actualCore` and initialises it. Since the Core never reads `meta`, that is
   the initialised Core the user's own core options build, and it claims the
   `Core.instance` slot when the slot is empty. The worker table, the pending
   restarts and the supervisor trace are never touched. Constructing the Core
   throws exactly when one of its providers is unmarked.
   */
  function InitWorker(s: Supervisor, statics: Statics, store: Store): (r: Result<Booted>)
    ensures r.Err? <==> !AllMarked(store, ProviderList(s.options.core))
    ensures r.Ok? ==>
      && NewCore(statics, store, s.options.core).Ok?
      && r.value.supervisor == s.(actualCore := Some(Runtime.Init(NewCore(statics, store, s.options.core).value.core)))
      && r.value.statics == NewCore(statics, store, s.options.core).value.statics
    ensures r.Ok? ==>
      && r.value.supervisor.actualCore.Some?
      && r.value.supervisor.actualCore.value.initialized
      && |r.value.supervisor.actualCore.value.modules| == |ModuleSpecs(s.options.core)|
      && r.value.statics.instance ==
           (if statics.instance.None? then Some(r.value.supervisor.actualCore.value.self.id) else statics.instance)
  {
    NewCoreIgnoresMeta(statics, store, s.options.core, WorkerCoreOptions(s.options.core).meta);
    assert WorkerCoreOptions(s.options.core) == s.options.core.(meta := WorkerCoreOptions(s.options.core).meta);
    match NewCore(statics, store, WorkerCoreOptions(s.options.core))
    case Err(e) => Err(e)
    case Ok(built) => Ok(Booted(s.(actualCore := Some(Runtime.Init(built.core))), built.statics))
  }

  /** `init()`: exactly one of the primary path and the worker path, chosen by role. */
  function Init(s: Supervisor, statics: Statics, store: Store): (r: Result<Booted>)
    ensures s.role.Primary? ==> r == Ok(Booted(InitPrimary(s), statics))
    ensures s.role.Worker? ==> r == InitWorker(s, statics, store)
    ensures s.role.Primary? ==> r.value.supervisor.actualCore == s.actualCore
    ensures s.role.Worker? && r.Ok? ==>
      && r.value.supervisor.workers == s.workers
      && r.value.supervisor.pending == s.pending
      && r.value.supervisor.trace == s.trace
      && r.value.supervisor.exitListeners == s.exitListeners
  {
    match s.role
    case Primary => Ok(Booted(InitPrimary(s), statics))
    case Worker => InitWorker(s, statics, store)
  }
}
