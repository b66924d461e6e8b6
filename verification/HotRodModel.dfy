/**
 A Hot Rod rolling upgrade: a second StatefulSet is created beside the first, the caches are connected, the services
 redirected, the data fetched, and the first StatefulSet is removed. Six stages, each entered again until it succeeds;
 asking for the source version again rolls the upgrade back.
 */
module HotRodModel {
  import opened ApiCalls
  import opened Operands
  import opened CacheNames
  import M = CacheMigration
  import N = FreshNames

  type Name = string

  datatype Stage = Start | Prepare | Redirect | Sync | Replace | Cleanup

  datatype Upgrade = Upgrade(stage: Stage, source: Name, target: Name, sourceVersion: Option<Version>)

  // Which pods a service selects: `Only` stands for the StatefulSet label in its selector.
  datatype Selector = Absent | Any | Only(name: Name)

  datatype Service = User | Admin | Outer

  datatype Services = Services(user: Selector, admin: Selector, outer: Selector, ping: map<Name, Selector>) {
    function Of(s: Service): Selector {
      match s case User => user case Admin => admin case Outer => outer
    }

    function With(s: Service, to: Selector): Services {
      match s case User => this.(user := to) case Admin => this.(admin := to) case Outer => this.(outer := to)
    }
  }

  // The StatefulSets by name, each with the caches its servers hold, and what belongs to them. The ConfigMap and the
  // ping service of a StatefulSet are known by its name.
  datatype Store = Store(sets: map<Name, M.Caches>, configs: set<Name>, services: Services)

  // `name` is the StatefulSet the custom resource refers to.
  datatype Status = Status(name: Name, upgrade: Option<Upgrade>, operand: OperandStatus, wellFormed: bool)

  datatype Request = Request(version: Version, image: Option<string>)

  // What does not change: the operator's releases, the caches a new server holds, the largest machine integer, and
  // whether the cluster is exposed through a NodePort or LoadBalancer service.
  datatype Settings = Settings(known: Manager, client: Client, native: M.Caches, max: nat, exposed: bool)

  // History: the caches listed when they were last connected or fetched completely, whether the cleanup or a rollback
  // of the upgrade in progress has begun.
  datatype Past = Past(listed: seq<string>, cleaning: bool, rollingBack: bool)

  datatype World = World(settings: Settings, request: Request, status: Status, store: Store, past: Past) {
    predicate Required()
      requires request.version in settings.known
    {
      UpgradeRequired(status.operand, request.image, settings.known[request.version], settings.known)
    }

    // The version asked for is the one the upgrade started from.
    predicate RequestsSource() {
      && status.upgrade.Some? && request.version in settings.known
      && var v := status.upgrade.value.sourceVersion;
         v.Some? && v.value in settings.known && settings.known[request.version].EQ(settings.known[v.value])
    }
  }

  // ---- calls that change the store ----

  datatype Op =
    | Put(service: Service) | PutPing(name: Name) | AddConfig(name: Name) | AddSet(name: Name)
    | ClonePing(from: Name, name: Name)
    | Select(service: Service, to: Selector) | SelectPing(name: Name, to: Selector)
    | DeleteConfig(name: Name) | DeletePing(name: Name) | DeleteSet(name: Name)

  datatype Call = Do(op: Op) | ScheduleUpdate | StageUpdate | DoneUpdate

  // Handlers before which a run may stop.
  datatype Point = Scheduling | Provisioning | Exposing | Managing | Migrating

  datatype Env = Env(
    faults: map<Call, Outcome>,
    stops: set<Point>,
    pods: bool,                    // pods of the StatefulSet in use are listed
    bothListed: bool,              // pods of the source and of the target are listed
    formed: bool,                  // the pods of the target are ready and agree on one cluster view
    listed: Option<seq<string>>,   // the cache names the source reports
    cacheFaults: M.Faults,
    observed: Option<bool>         // the WellFormed condition written at the end of the run, if it gets there
  ) {
    function Of(call: Call): Outcome {
      if call in faults then faults[call] else Ok
    }
  }

  // Selectors can only be changed, and a ping service only be cloned, if the service exists.
  predicate Enabled(s: Store, op: Op) {
    match op
    case Select(service, _) => !s.services.Of(service).Absent?
    case SelectPing(n, _) => n in s.services.ping
    case ClonePing(from, _) => from in s.services.ping
    case _ => true
  }

  function Effect(g: Settings, s: Store, op: Op): Store {
    match op
    case Put(service) => s.(services := s.services.With(service, Any))
    case PutPing(n) => s.(services := s.services.(ping := s.services.ping[n := Any]))
    case AddConfig(n) => s.(configs := s.configs + {n})
    case AddSet(n) => s.(sets := s.sets[n := g.native])
    case ClonePing(_, n) => s.(services := s.services.(ping := s.services.ping[n := Only(n)]))
    case Select(service, to) => s.(services := s.services.With(service, to))
    case SelectPing(n, to) => s.(services := s.services.(ping := s.services.ping[n := to]))
    case DeleteConfig(n) => s.(configs := s.configs - {n})
    case DeletePing(n) => s.(services := s.services.(ping := s.services.ping - {n}))
    case DeleteSet(n) => s.(sets := s.sets - {n})
  }

  // A script of calls, up to the first error.
  function Execute(g: Settings, s: Store, ops: seq<Op>, k: nat, e: Env): (Store, bool)
    requires k <= |ops|
    decreases |ops| - k
  {
    if k == |ops| then (s, true)
    else if !Enabled(s, ops[k]) then (s, false)
    else match e.Of(Do(ops[k]))
      case Failed => (s, false)
      case Lost => (Effect(g, s, ops[k]), false)
      case Ok => Execute(g, Effect(g, s, ops[k]), ops, k + 1, e)
  }

  // ---- the scripts ----

  function WhenExposed(g: Settings, op: Op): seq<Op> {
    if g.exposed then [op] else []
  }

  function RedirectTo(g: Settings, to: Name): seq<Op> {
    [Select(User, Only(to))] + WhenExposed(g, Select(Outer, Only(to)))
  }

  function ClearSelectors(g: Settings, inUse: Name): seq<Op> {
    [Select(Admin, Any), SelectPing(inUse, Any), Select(User, Any)] + WhenExposed(g, Select(Outer, Any))
  }

  function Deletions(gone: Name): seq<Op> {
    [DeleteConfig(gone), DeletePing(gone), DeleteSet(gone)]
  }

  // `inUse` names the StatefulSet whose ping service loses its selector, `gone` the one that is removed.
  function Removal(g: Settings, inUse: Name, gone: Name): seq<Op> {
    ClearSelectors(g, inUse) + Deletions(gone)
  }

  function PinTo(g: Settings, name: Name): seq<Op> {
    [Select(Admin, Only(name)), SelectPing(name, Only(name)), Select(User, Only(name))]
      + WhenExposed(g, Select(Outer, Only(name)))
  }

  function PinToSource(w: World, u: Upgrade): seq<Op> {
    (if u.target in w.store.services.ping then [] else [ClonePing(w.status.name, u.target)])
      + PinTo(w.settings, w.status.name)
  }

  function CreateTarget(w: World, u: Upgrade): seq<Op> {
    (if u.target in w.store.configs then [] else [AddConfig(u.target)]) + [AddSet(u.target)]
  }

  function RollbackScript(w: World, u: Upgrade): seq<Op> {
    RedirectTo(w.settings, u.source) + Removal(w.settings, w.status.name, u.target)
  }

  function WithStore(w: World, s: Store): World {
    w.(store := s)
  }

  // ---- the stages ----

  function SetStage(w: World, next: Stage, e: Env): World
    requires w.status.upgrade.Some?
  {
    if e.Of(StageUpdate) == Failed then w
    else w.(status := w.status.(upgrade := Some(w.status.upgrade.value.(stage := next))))
  }

  function RunStart(w: World, u: Upgrade, e: Env): World
    requires w.status.upgrade == Some(u)
  {
    var (s, ok) := Execute(w.settings, w.store, PinToSource(w, u), 0, e);
    var pinned := WithStore(w, s);
    if !ok then pinned
    else if u.target !in s.sets then WithStore(w, Execute(w.settings, s, CreateTarget(pinned, u), 0, e).0)
    else if e.formed then SetStage(pinned, Prepare, e)
    else pinned
  }

  // Prepare and Sync: one of the jobs on the caches of the target, then the next stage.
  function RunCaches(w: World, u: Upgrade, job: M.Job, next: Stage, e: Env): World
    requires w.status.upgrade == Some(u)
  {
    if u.target !in w.store.sets || !e.bothListed then w
    else
      var (caches, result) := M.Migrate(job, w.settings.client, e.listed, w.store.sets[u.target], e.cacheFaults);
      var done := WithStore(w, w.store.(sets := w.store.sets[u.target := caches]));
      if result == M.Done then SetStage(done.(past := w.past.(listed := e.listed.value)), next, e) else done
  }

  function RunRedirect(w: World, u: Upgrade, e: Env): World
    requires w.status.upgrade == Some(u)
  {
    var (s, ok) := Execute(w.settings, w.store, RedirectTo(w.settings, u.target), 0, e);
    if ok then SetStage(WithStore(w, s), Sync, e) else WithStore(w, s)
  }

  function RunReplace(w: World, u: Upgrade, e: Env): World
    requires w.status.upgrade == Some(u)
  {
    var (s, ok) := Execute(w.settings, w.store, [Select(Admin, Only(u.target))], 0, e);
    if !ok || e.Of(StageUpdate) == Failed then WithStore(w, s)
    else WithStore(w, s).(status := w.status.(name := u.target, operand := w.status.operand.(phase := Running),
                                              upgrade := Some(u.(stage := Cleanup))))
  }

  function RunCleanup(w: World, u: Upgrade, e: Env): World
    requires w.status.upgrade == Some(u)
  {
    if !w.status.wellFormed then w
    else
      var (s, ok) := Execute(w.settings, w.store, Removal(w.settings, w.status.name, u.source), 0, e);
      if !ok || e.Of(DoneUpdate) == Failed then WithStore(w, s).(past := w.past.(cleaning := true))
      else WithStore(w, s).(status := w.status.(upgrade := None), past := Past([], false, false))
  }

  function RunMigration(w: World, u: Upgrade, e: Env): World
    requires w.status.upgrade == Some(u)
  {
    match u.stage
    case Start => RunStart(w, u, e)
    case Prepare => RunCaches(w, u, M.Connecting, Redirect, e)
    case Redirect => RunRedirect(w, u, e)
    case Sync => RunCaches(w, u, M.Syncing, Replace, e)
    case Replace => RunReplace(w, u, e)
    case Cleanup => RunCleanup(w, u, e)
  }

  function RunRollback(w: World, u: Upgrade, e: Env): World
    requires w.status.upgrade == Some(u) && w.RequestsSource()
  {
    var (s, ok) := Execute(w.settings, w.store, RollbackScript(w, u), 0, e);
    if !ok || e.Of(DoneUpdate) == Failed then WithStore(w, s).(past := w.past.(rollingBack := true))
    else
      var operand := StatusOf(w.request.image, Running, w.settings.known[u.sourceVersion.value]);
      WithStore(w, s).(status := w.status.(name := u.source, upgrade := None, operand := operand),
                       past := Past([], false, false))
  }

  // Comparing with a source release the operator no longer knows is a nil dereference: the handler panics every time.
  function HandleUpgrade(w: World, e: Env): World {
    if w.status.upgrade.None? || !e.pods then w
    else
      var u := w.status.upgrade.value;
      if u.sourceVersion.Some? && u.sourceVersion.value !in w.settings.known then w
      else if w.RequestsSource() then RunRollback(w, u, e)
      else if Migrating in e.stops then w
      else RunMigration(w, u, e)
  }

  // ---- one reconciliation ----

  function ProvisionScript(w: World): seq<Op> {
    var n := w.status.name;
    [AddConfig(n), PutPing(n), Put(Admin)] + (if n in w.store.sets then [] else [AddSet(n)])
  }

  // The provisioning handlers, run only when no upgrade was in progress at the time the pipeline was built.
  function Provision(w: World, e: Env): (World, bool) {
    var (s, ok) := Execute(w.settings, w.store, ProvisionScript(w), 0, e);
    if !ok || Exposing in e.stops then (WithStore(w, s), false)
    else
      var (s', ok') := Execute(w.settings, s, WhenExposed(w.settings, Put(Outer)), 0, e);
      (WithStore(w, s'), ok')
  }

  function Observe(w: World, e: Env): World {
    if e.observed.None? then w
    else
      var operand := if e.observed.value then w.status.operand.(phase := Running) else w.status.operand;
      w.(status := w.status.(wellFormed := e.observed.value, operand := operand))
  }

  function Schedule(w: World, e: Env): World
    requires w.request.version in w.settings.known
  {
    if e.Of(ScheduleUpdate) == Failed then w
    else
      var n := w.status.name;
      var upgrade := Upgrade(Start, n, N.Generate(n, w.settings.max), w.status.operand.version);
      w.(status := w.status.(upgrade := Some(upgrade),
                             operand := StatusOf(w.request.image, Pending, w.settings.known[w.request.version])))
  }

  // From PodStatus on.
  function ManageFrom(w: World, e: Env): World {
    if Managing in e.stops || w.status.name !in w.store.sets then w else Observe(HandleUpgrade(w, e), e)
  }

  function AfterSchedule(w: World, e: Env): World {
    if w.status.upgrade.Some? then ManageFrom(w, e)
    else if Provisioning in e.stops then w
    else var (w1, ok) := Provision(w, e); if ok then ManageFrom(w1, e) else w1
  }

  function Reconcile(w: World, e: Env): World {
    if w.request.version !in w.settings.known then w
    else
      // the cluster service is rewritten by every run, and with it the selector of the user service
      var (s, ok) := Execute(w.settings, w.store, [Put(User)], 0, e);
      var w0 := WithStore(w, s);
      if !ok || Scheduling in e.stops then w0
      else if w.status.upgrade.None? && w.Required() then Schedule(w0, e)
      else AfterSchedule(w0, e)
  }

  // ---- everything that can happen ----

  datatype Event = Reconciled(e: Env) | Requested(version: Version, image: Option<string>)

  function Step(w: World, ev: Event): World {
    match ev
    case Reconciled(e) => Reconcile(w, e)
    case Requested(version, image) => w.(request := Request(version, image))
  }

  function Steps(w: World, evs: seq<Event>): World {
    if evs == [] then w else Step(Steps(w, evs[..|evs| - 1]), evs[|evs| - 1])
  }

  // The conduct asked of the user: once a rollback has begun the request is not changed again before it is over, and
  // no rollback is asked for in the Cleanup stage.
  predicate Legal(w: World, ev: Event) {
    match ev
    case Reconciled(_) => true
    case Requested(version, image) =>
      var asked := Step(w, ev);
      && (w.past.rollingBack ==> asked.RequestsSource())
      && (w.status.upgrade.Some? && w.status.upgrade.value.stage == Cleanup ==> !asked.RequestsSource())
  }

  predicate LegalRun(w: World, evs: seq<Event>) {
    evs == [] || (LegalRun(w, evs[..|evs| - 1]) && Legal(Steps(w, evs[..|evs| - 1]), evs[|evs| - 1]))
  }

  // Nothing has been created yet.
  predicate Initial(w: World) {
    && w.status.upgrade.None? && w.status.operand.phase == Pending
    && w.status.operand.version.Some? && w.status.operand.version.value in w.settings.known
    && w.store == Store(map[], {}, Services(Absent, Absent, Absent, map[]))
    && w.past == Past([], false, false)
  }
}
