/**
 The state of one cluster using Shutdown upgrades, and what each handler of the pipeline does to it.

 A handler performs API calls; every call may succeed, fail without effect, or take effect and still report an error.
 The first error stops the pipeline, and the next run starts again from the stored state, so a crash of the operator
 between two calls is a run in which every later call fails.
 */
module ShutdownModel {
  import opened ApiCalls
  import opened FlowControl
  import opened Operands
  import W = WellFormed

  datatype Server = Up | Down

  // `current` and `ready` are the pod counts last reported by the StatefulSet controller.
  datatype StatefulSet = StatefulSet(replicas: nat, current: nat, ready: nat)

  datatype Spec = Spec(version: Version, image: Option<string>, replicas: nat)

  // `wanted` is ReplicasWantedAtRestart, `graceful` the GracefulShutdown condition.
  datatype Status = Status(replicas: nat, wanted: nat, upgrade: bool, stopping: bool, graceful: bool, scalingUp: bool,
                           scalingDown: bool, wellFormed: W.Status, operand: OperandStatus)

  // The servers are listed in the order of the pod list, which is sorted by name.
  datatype Cluster = Cluster(stateful: Option<StatefulSet>, servers: seq<Server>, rebalance: bool, pvcs: set<nat>)

  // History, not stored anywhere: the size of the cluster when Stopping was last recorded, and whether no successful
  // RebalanceEnable has been seen since.
  datatype Past = Past(shutSize: nat, awaiting: bool)

  datatype World = World(known: Manager, spec: Spec, status: Status, cluster: Cluster, past: Past) {
    function Size(): nat {
      if cluster.stateful.Some? then cluster.stateful.value.replicas else 0
    }

    predicate Required()
      requires spec.version in known
    {
      UpgradeRequired(status.operand, spec.image, known[spec.version], known)
    }
  }

  datatype Call =
    | ScheduleSpec | ScheduleUpdate | CreateSet | CreatedUpdate | DeleteSet | RestoreSpec | RestoreUpdate
    | RebalanceOff | ShutdownPod(pod: nat) | StoppingUpdate | WantedUpdate | ScaleToZero | ScaleListener | DownUpdate
    | ResumeUpdate | ScalingUpdate | DeletePvc(index: nat) | ScaledUpdate | RespinUpdate | SetUpdate | PodIpsUpdate
    | RebalanceOn | ScaledUpUpdate | WellFormedUpdate

  datatype Handler =
    | InitialiseOperandVersion | Configure | ScheduleGracefulShutdownUpgrade | Provision | ClusterStatefulSet | Expose
    | PodStatus | GracefulShutdownUpgrade | PodUpkeep | GracefulShutdown | AwaitUpgrade | ClusterScaling
    | StatefulSetRollingUpgrade | AwaitPodIps | EnableRebalanceAfterScaleUp | AwaitWellFormedCondition | Tail

  // What one pod answers while a shutdown is prepared. A server that has been shut down keeps refusing the client with
  // its STOPPING or TERMINATED state as long as it can be reached.
  datatype Reply = Reply(reached: bool, size: Option<nat>, healthy: Option<bool>, detail: bool)

  datatype Env = Env(
    halts: set<Handler>,              // handlers that stop before doing anything: a failed read, a panic
    faults: map<Call, Outcome>,
    replies: seq<Reply>,
    anyReady: bool,                   // some pod is ready, so a client can be built
    clusterSize: Option<nat>,         // what that pod reports
    respin: bool,                     // the image of the pod template differs from the requested operand's
    ipsReady: bool,
    views: seq<W.PodView>
  ) {
    function Of(call: Call): Outcome {
      if call in faults then faults[call] else Ok
    }

    function ReplyOf(pod: nat): Reply {
      if pod < |replies| then replies[pod] else Reply(false, None, None, false)
    }

    function ViewsOf(pods: nat): seq<W.PodView> {
      seq(pods, k requires 0 <= k < pods => if k < |views| then views[k] else W.PodView(false, None))
    }
  }

  // A pipeline run in progress.
  datatype Run = Run(w: World, flow: Flow)

  // The handler ends by storing `next` and requeueing, whatever the outcome.
  function Finish(c: Run, w: World, next: World, o: Outcome): Run {
    Run(if o == Failed then w else next, Requeued(c.flow, o != Ok))
  }

  // The handler stores `next` and continues unless the call reports an error.
  function Proceed(c: Run, w: World, next: World, o: Outcome): Run {
    if o == Ok then Run(next, c.flow) else Finish(c, w, next, o)
  }

  function Halt(c: Run, err: bool): Run {
    c.(flow := Requeued(c.flow, err))
  }

  function Wait(c: Run, err: bool): Run {
    c.(flow := RequeuedAfter(c.flow, WAIT_PODS_NOT_READY, err))
  }

  // ---- GracefulShutdown: the two loops over the pods ----

  datatype Verdict = Unreachable | NotWhole | Go

  // First loop, from pod `k` on: `initiated` once a pod that has already been shut down was met.
  function CheckPods(w: World, e: Env, k: nat, initiated: bool): Verdict
    requires k <= |w.cluster.servers|
    decreases |w.cluster.servers| - k
  {
    if k == |w.cluster.servers| then Go
    else
      var r := e.ReplyOf(k);
      if !r.reached then Unreachable
      else if w.cluster.servers[k].Down? then CheckPods(w, e, k + 1, true)
      else if initiated then CheckPods(w, e, k + 1, true)
      else if r.size.None? then Unreachable
      else if r.size.value != w.Size() then NotWhole
      else if r.healthy.None? then Unreachable
      else if !r.healthy.value then (if r.detail then NotWhole else Unreachable)
      else CheckPods(w, e, k + 1, false)
  }

  datatype Sweep = Sweep(servers: seq<Server>, rebalance: bool, done: bool)

  // Second loop, from pod `k` on: `disabled` once rebalancing has been disabled in this run.
  function ShutdownPods(servers: seq<Server>, rebalance: bool, e: Env, k: nat, disabled: bool): Sweep
    requires k <= |servers|
    decreases |servers| - k
  {
    if k == |servers| then Sweep(servers, rebalance, true)
    else if servers[k].Down? then ShutdownPods(servers, rebalance, e, k + 1, disabled)
    else if !disabled && e.Of(RebalanceOff) != Ok then
      Sweep(servers, rebalance && e.Of(RebalanceOff) == Failed, false)
    else
      var off := if disabled then rebalance else false;
      match e.Of(ShutdownPod(k))
      case Failed => Sweep(servers, off, false)
      case Lost => Sweep(servers[k := Down], off, false)
      case Ok => ShutdownPods(servers[k := Down], off, e, k + 1, true)
  }

  function StopServers(c: Run, e: Env): Run
    requires c.w.cluster.stateful.Some?
  {
    match CheckPods(c.w, e, 0, false)
    case Unreachable => Halt(c, true)
    case NotWhole => Wait(c, true)
    case Go =>
      var s := ShutdownPods(c.w.cluster.servers, c.w.cluster.rebalance, e, 0, false);
      var w := c.w.(cluster := c.w.cluster.(servers := s.servers, rebalance := s.rebalance));
      if !s.done then Halt(Run(w, c.flow), true)
      else
        var next := w.(status := w.status.(stopping := true, wellFormed := W.False),
                       past := w.past.(shutSize := w.Size(), awaiting := true));
        Finish(c, w, next, e.Of(StoppingUpdate))
  }

  function ScaleDown(c: Run, e: Env): Run
    requires c.w.cluster.stateful.Some?
  {
    var w := c.w.(status := c.w.status.(wanted := c.w.Size()));
    if e.Of(WantedUpdate) != Ok then Finish(c, c.w, w, e.Of(WantedUpdate))
    else Finish(c, w, w.(cluster := w.cluster.(stateful := Some(c.w.cluster.stateful.value.(replicas := 0)))),
                e.Of(ScaleToZero))
  }

  function HandleGracefulShutdown(c: Run, e: Env): Run {
    var w := c.w;
    if w.cluster.stateful.None? then Halt(c, false)
    else if w.spec.replicas == 0 then
      if w.Size() != 0 then
        if !w.status.stopping then StopServers(c, e) else ScaleDown(c, e)
      else if w.cluster.stateful.value.current == 0 then
        if e.Of(ScaleListener) != Ok then Halt(c, true)
        else Finish(c, w, w.(status := w.status.(graceful := true, stopping := false)), e.Of(DownUpdate))
      else Halt(c, false)
    else if w.status.graceful then
      if w.status.wanted != 0 && w.spec.replicas != w.status.wanted then Halt(c, true)
      else
        var resumed := w.status.(replicas := w.spec.replicas, wanted := 0, graceful := false, scalingUp := true);
        Finish(c, w, w.(status := resumed), e.Of(ResumeUpdate))
    else c
  }

  // ---- ClusterScaling: removing the volumes of the pods that are gone, highest index first ----

  // `lo` is where the loop stops; the result tells whether every call succeeded.
  function DeletePvcs(pvcs: set<nat>, e: Env, hi: nat, lo: nat): (set<nat>, bool)
    decreases hi
  {
    if hi <= lo then (pvcs, true)
    else
      var rest := if e.Of(DeletePvc(hi - 1)) == Failed then pvcs else pvcs - {hi - 1};
      if e.Of(DeletePvc(hi - 1)) != Ok then (rest, false) else DeletePvcs(rest, e, hi - 1, lo)
  }

  function HandleClusterScaling(c: Run, e: Env): Run {
    var w := c.w;
    if w.status.replicas == w.spec.replicas || w.cluster.stateful.None? || w.Size() != w.spec.replicas then c
    else
      var ready := w.cluster.stateful.value.ready;
      var current := w.cluster.stateful.value.current;
      var scaled := w.(status := w.status.(replicas := w.spec.replicas, scalingDown := false, scalingUp := false));
      if (w.status.scalingUp && ready < w.spec.replicas) || (w.status.scalingDown && ready > w.spec.replicas) then
        Wait(c, false)
      else if w.status.replicas > w.spec.replicas then
        if !w.status.scalingDown then Finish(c, w, w.(status := w.status.(scalingDown := true)), e.Of(ScalingUpdate))
        else if w.spec.replicas != 0 && w.status.replicas != current then
          var (pvcs, ok) := DeletePvcs(w.cluster.pvcs, e, w.status.replicas, current);
          var deleted := w.(cluster := w.cluster.(pvcs := pvcs));
          if !ok then Halt(Run(deleted, c.flow), true)
          else Proceed(c, deleted, scaled.(cluster := scaled.cluster.(pvcs := pvcs)), e.Of(ScaledUpdate))
        else Proceed(c, w, scaled, e.Of(ScaledUpdate))
      else if !w.status.scalingUp then Finish(c, w, w.(status := w.status.(scalingUp := true)), e.Of(ScalingUpdate))
      else Proceed(c, w, scaled, e.Of(ScaledUpdate))
  }

  // ---- the other handlers ----

  // An update of both spec and status is two patches, the spec first; one that changes nothing is not sent.
  function PatchSpec(w: World, replicas: nat, o: Outcome): (World, Outcome) {
    if w.spec.replicas == replicas then (w, Ok)
    else (if o == Failed then w else w.(spec := w.spec.(replicas := replicas)), o)
  }

  function HandleSchedule(c: Run, e: Env): Run
    requires c.w.spec.version in c.w.known
  {
    var w := c.w;
    if w.status.upgrade || !w.Required() then c
    else
      var (lowered, o) := PatchSpec(w, 0, e.Of(ScheduleSpec));
      var operand := StatusOf(w.spec.image, Pending, w.known[w.spec.version]);
      if o != Ok then Halt(Run(lowered, c.flow), true)
      else Finish(c, lowered, lowered.(status := w.status.(upgrade := true, operand := operand)), e.Of(ScheduleUpdate))
  }

  function HandleClusterStatefulSet(c: Run, e: Env): Run {
    var w := c.w;
    var created := w.(cluster := w.cluster.(stateful := Some(StatefulSet(w.spec.replicas, 0, 0))));
    if w.cluster.stateful.Some? then c
    else if e.Of(CreateSet) != Ok then Finish(c, w, created, e.Of(CreateSet))
    else Proceed(c, created, created.(status := created.status.(replicas := w.spec.replicas)), e.Of(CreatedUpdate))
  }

  // The StatefulSet is the first resource destroyed; an error leaves the rest in place, but the custom resource is
  // updated all the same.
  function HandleGracefulShutdownUpgrade(c: Run, e: Env): Run {
    var w := c.w;
    if w.status.upgrade && !w.status.stopping && w.status.wanted > 0 then
      var destroyed := if e.Of(DeleteSet) == Failed then w else w.(cluster := w.cluster.(stateful := None));
      var (restored, o) := PatchSpec(destroyed, w.status.wanted, e.Of(RestoreSpec));
      if o != Ok then Halt(Run(restored, c.flow), true)
      else Finish(c, restored, restored.(status := w.status.(upgrade := false)), e.Of(RestoreUpdate))
    else c
  }

  // A respun base image puts the operand back to Pending.
  function Respin(c: Run, e: Env): Run
    requires c.w.spec.version in c.w.known
  {
    if c.w.spec.image.None? && c.w.known[c.w.spec.version].cve && e.respin then
      Proceed(c, c.w, c.w.(status := c.w.status.(operand := StatusOf(None, Pending, c.w.known[c.w.spec.version]))),
              e.Of(RespinUpdate))
    else c
  }

  // The StatefulSet is given the size the custom resource asks for.
  function Resize(c: Run, e: Env): Run
    requires c.w.cluster.stateful.Some?
  {
    if c.w.Size() == c.w.spec.replicas then c
    else
      var resized := Some(c.w.cluster.stateful.value.(replicas := c.w.spec.replicas));
      Proceed(c, c.w, c.w.(cluster := c.w.cluster.(stateful := resized)), e.Of(SetUpdate))
  }

  function HandleStatefulSetRollingUpgrade(c: Run, e: Env): Run
    requires c.w.spec.version in c.w.known
  {
    if c.w.cluster.stateful.None? then c
    else
      var c' := Respin(c, e);
      if c'.flow.stop then c' else Resize(c', e)
  }

  function HandleAwaitPodIps(c: Run, e: Env): Run {
    if c.w.cluster.servers == [] || !e.ipsReady then
      var o := e.Of(PodIpsUpdate);
      Run(if o == Failed then c.w else c.w.(status := c.w.status.(wellFormed := W.Unknown)),
          RequeuedAfter(c.flow, WAIT_PODS_NOT_READY, o != Ok))
    else c
  }

  function HandleEnableRebalance(c: Run, e: Env): Run {
    var w := c.w;
    if w.spec.replicas == 0 || !w.status.scalingUp then c
    else if w.cluster.stateful.None? then Halt(c, false)
    else if || w.cluster.stateful.value.current != w.spec.replicas
            || |w.cluster.servers| != w.spec.replicas
            || !e.anyReady then Wait(c, false)
    else if e.clusterSize.None? then Halt(c, true)
    else if e.clusterSize.value != w.spec.replicas then Wait(c, false)
    else
      var enabled := if e.Of(RebalanceOn) == Failed then w
                     else w.(cluster := w.cluster.(rebalance := true), past := w.past.(awaiting := false));
      if e.Of(RebalanceOn) != Ok then Halt(Run(enabled, c.flow), true)
      else Finish(c, enabled, enabled.(status := enabled.status.(scalingUp := false)), e.Of(ScaledUpUpdate))
  }

  // What is asked of a stable cluster (the preliminary checks have passed).
  predicate Stable(w: World) {
    !w.status.graceful && !w.status.upgrade && !w.status.stopping && w.status.wellFormed == W.True
  }

  function HandleAwaitWellFormed(c: Run, e: Env): Run {
    var w := c.w;
    var status := W.ConditionOf(w.spec.replicas, e.ViewsOf(|w.cluster.servers|));
    var operand := if status == W.True then w.status.operand.(phase := Running) else w.status.operand;
    var next := w.(status := w.status.(wellFormed := status, operand := operand));
    var c' := Proceed(c, w, next, e.Of(WellFormedUpdate));
    if c'.flow.stop || (Stable(c'.w) && |c'.w.cluster.servers| >= c'.w.spec.replicas) then c'
    else c'.(flow := RequeuedAfter(c'.flow, WAIT_NOT_WELL_FORMED, false))
  }

  function Handle(h: Handler, c: Run, e: Env): Run {
    if h in e.halts then Halt(c, true)
    else match h
      case InitialiseOperandVersion => if c.w.spec.version in c.w.known then c else c.(flow := Stopped(c.flow, true))
      // resolving the requested operand panics when it is unknown
      case ScheduleGracefulShutdownUpgrade =>
        if c.w.spec.version in c.w.known then HandleSchedule(c, e) else Halt(c, true)
      case ClusterStatefulSet => HandleClusterStatefulSet(c, e)
      case PodStatus => if c.w.cluster.stateful.None? then Halt(c, false) else c
      case GracefulShutdownUpgrade => HandleGracefulShutdownUpgrade(c, e)
      case GracefulShutdown => HandleGracefulShutdown(c, e)
      case AwaitUpgrade => if c.w.status.upgrade then Halt(c, false) else c
      case ClusterScaling => HandleClusterScaling(c, e)
      case StatefulSetRollingUpgrade =>
        if c.w.spec.version in c.w.known then HandleStatefulSetRollingUpgrade(c, e) else Halt(c, true)
      case AwaitPodIps => HandleAwaitPodIps(c, e)
      case EnableRebalanceAfterScaleUp => HandleEnableRebalance(c, e)
      case AwaitWellFormedCondition => HandleAwaitWellFormed(c, e)
      case _ => c
  }

  // The handlers, in pipeline order; the provisioning ones are added only when no upgrade is in progress at the time
  // the pipeline is built.
  function Pipeline(upgrading: bool): seq<Handler> {
    [InitialiseOperandVersion, Configure, ScheduleGracefulShutdownUpgrade]
    + (if upgrading then [] else [Provision, ClusterStatefulSet, Expose])
    + [PodStatus, GracefulShutdownUpgrade, PodUpkeep, GracefulShutdown, AwaitUpgrade, ClusterScaling,
       StatefulSetRollingUpgrade, AwaitPodIps, EnableRebalanceAfterScaleUp, AwaitWellFormedCondition, Tail]
  }

  // The handlers run in order until one asks to stop.
  function RunFrom(hs: seq<Handler>, k: nat, c: Run, e: Env): Run
    requires k <= |hs|
    decreases |hs| - k
  {
    if k == |hs| then c
    else
      var c' := Handle(hs[k], c, e);
      if c'.flow.stop then c' else RunFrom(hs, k + 1, c', e)
  }

  function Process(w: World, e: Env): Run {
    RunFrom(Pipeline(w.status.upgrade), 0, Run(w, START), e)
  }

  function Reconcile(w: World, e: Env): World {
    Process(w, e).w
  }

  // ---- everything that can happen to the cluster ----

  datatype Event =
    | Reconciled(e: Env)
    | User(replicas: nat, requested: Version, image: Option<string>)
    | Pods(servers: seq<Server>)
    | Reported(current: nat, ready: nat)

  function Step(w: World, ev: Event): World {
    match ev
    case Reconciled(e) => Reconcile(w, e)
    case User(replicas, requested, image) =>
      w.(spec := w.spec.(replicas := replicas, version := requested, image := image))
    case Pods(servers) => w.(cluster := w.cluster.(servers := servers))
    case Reported(current, ready) =>
      if w.cluster.stateful.None? then w
      else w.(cluster := w.cluster.(stateful := Some(w.cluster.stateful.value.(current := current, ready := ready))))
  }

  function Steps(w: World, evs: seq<Event>): World {
    if evs == [] then w else Step(Steps(w, evs[..|evs| - 1]), evs[|evs| - 1])
  }

  predicate AllDown(servers: seq<Server>) {
    forall k :: 0 <= k < |servers| ==> servers[k].Down?
  }

  predicate AllUp(servers: seq<Server>) {
    forall k :: 0 <= k < |servers| ==> servers[k].Up?
  }

  // What the platform may do to the pods: none without a StatefulSet; while the StatefulSet asks for none they only
  // disappear; while a shutdown that has reached a server is in progress they are neither replaced nor joined by new
  // ones; otherwise they come and go freely, stopped servers being restarted together. The reported count is 0 only
  // when there is no pod.
  predicate PodsMayBecome(w: World, servers: seq<Server>) {
    if w.cluster.stateful.None? || w.cluster.stateful.value.current == 0 then servers == []
    else if w.Size() == 0 then |servers| <= |w.cluster.servers| && forall x :: x in servers ==> x in w.cluster.servers
    else if w.status.stopping || (w.spec.replicas == 0 && !AllUp(w.cluster.servers)) then servers == w.cluster.servers
    else AllUp(servers)
  }

  // The resumed cluster has not been scaled up again yet.
  predicate ResumeWindow(w: World) {
    w.past.awaiting && !w.status.stopping && !w.status.graceful && w.cluster.stateful.Some? && w.Size() == 0
  }

  // The StatefulSet was destroyed by an upgrade and has not been created again yet.
  predicate RebuildWindow(w: World) {
    w.status.wanted > 0 && !w.status.upgrade && w.cluster.stateful.None?
  }

  // The resumed cluster is forming; rebalancing is still off.
  predicate FormingWindow(w: World) {
    w.past.awaiting && !w.status.stopping && !w.status.graceful && w.Size() > 0
  }

  // The request would schedule an upgrade.
  predicate AsksForUpgrade(w: World, requested: Version, image: Option<string>) {
    requested in w.known && UpgradeRequired(w.status.operand, image, w.known[requested], w.known)
  }

  // The conduct asked of the user: do not raise the replicas while the servers are being stopped, in the three windows
  // above leave the replicas alone (outside ResumeWindow they may still be set to 0), and in ResumeWindow do not ask
  // for an upgrade.
  predicate UserMay(w: World, replicas: nat, requested: Version, image: Option<string>) {
    && (w.status.stopping ==> replicas == 0)
    && (ResumeWindow(w) ==> replicas == w.spec.replicas && !AsksForUpgrade(w, requested, image))
    && (RebuildWindow(w) ==> replicas == 0 || replicas == w.status.wanted)
    && (FormingWindow(w) ==> replicas == 0 || replicas == w.status.replicas)
  }

  predicate Legal(w: World, ev: Event) {
    match ev
    case Reconciled(_) => true
    case User(replicas, requested, image) => UserMay(w, replicas, requested, image)
    case Pods(servers) => PodsMayBecome(w, servers)
    case Reported(current, ready) =>
      w.cluster.stateful.Some? ==>
        (w.Size() == 0 ==> current <= w.cluster.stateful.value.current) && (current == 0 ==> w.cluster.servers == [])
  }

  predicate LegalRun(w: World, evs: seq<Event>) {
    evs == [] || (LegalRun(w, evs[..|evs| - 1]) && Legal(Steps(w, evs[..|evs| - 1]), evs[|evs| - 1]))
  }

  // A custom resource that has passed its preliminary checks: nothing has been created yet.
  ghost predicate Initial(w: World) {
    && ValidManager(w.known)
    && w.status.operand.version.Some? && w.status.operand.version.value in w.known && w.status.operand.phase == Pending
    && w.cluster.stateful.None? && w.cluster.servers == [] && w.cluster.rebalance
    && w.status.wanted == 0 && w.status.wellFormed == W.False
    && !w.status.upgrade && !w.status.stopping && !w.status.graceful && !w.status.scalingUp && !w.status.scalingDown
    && !w.past.awaiting
  }
}
