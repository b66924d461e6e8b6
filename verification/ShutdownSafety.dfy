/**
 What every run of a Shutdown-upgrade cluster keeps, and the safety theorems that follow.
 */
module ShutdownSafety {
  import opened ApiCalls
  import opened FlowControl
  import opened Operands
  import opened ShutdownModel
  import opened ShutdownPodsProofs
  import W = WellFormed

  ghost predicate Base(w: World) {
    && ValidManager(w.known)
    && w.status.operand.version.Some? && w.status.operand.version.value in w.known
    && (w.status.upgrade ==> w.status.operand.phase == Pending)
    && (w.cluster.stateful.None? ==> w.cluster.servers == [])
    && (w.Size() == 0 && !w.status.stopping ==> w.cluster.servers == [])
    && (w.cluster.stateful.Some? && w.cluster.stateful.value.current == 0 ==> w.cluster.servers == [])
    && StoppedPrefix(w.cluster.servers)
    && (w.Size() == 0 && !w.past.awaiting ==> w.status.operand.phase == Pending && w.status.wellFormed != W.True)
  }

  // While Stopping is recorded every server is stopped, and the StatefulSet is scaled to 0 only once its size has been
  // recorded.
  ghost predicate StoppingFacts(w: World) {
    w.status.stopping ==>
      && w.spec.replicas == 0 && w.past.awaiting && w.cluster.stateful.Some? && AllDown(w.cluster.servers)
      && (w.Size() == w.past.shutSize || (w.Size() == 0 && w.status.wanted == w.past.shutSize))
  }

  predicate ScaledToZero(w: World) {
    w.cluster.stateful.Some? && w.Size() == 0 && w.cluster.stateful.value.current == 0
  }

  // A positive recorded size never stands over a running cluster whose upgrade could destroy it: the StatefulSet is at
  // zero, or gone, or belongs to a rebuild that the Pending phase shields from a new upgrade.
  ghost predicate WantedFacts(w: World) {
    w.status.wanted > 0 && !w.status.stopping ==>
      && w.status.graceful && w.past.awaiting && w.status.wanted == w.past.shutSize
      && (|| ScaledToZero(w)
          || (w.status.upgrade && w.cluster.stateful.None?)
          || (&& !w.status.upgrade && w.status.operand.phase == Pending
              && (w.cluster.stateful.None? ==> w.spec.replicas == 0 || w.spec.replicas == w.status.wanted)
              && (w.cluster.stateful.Some? ==> w.Size() == 0 || w.Size() == w.status.wanted)))
  }

  ghost predicate AwaitingFacts(w: World) {
    w.past.awaiting ==>
      && w.past.shutSize > 0 && w.status.wellFormed != W.True
      && (w.status.stopping || w.status.graceful || w.status.scalingUp)
      && (!w.status.stopping && w.status.graceful ==> w.status.wanted == w.past.shutSize)
      && (!w.status.stopping && !w.status.graceful ==>
            && w.status.wanted == 0 && w.cluster.stateful.Some?
            && w.status.replicas == w.past.shutSize && (w.spec.replicas == 0 || w.spec.replicas == w.status.replicas)
            && (w.Size() == 0 || w.Size() == w.past.shutSize)
            && (w.Size() == 0 ==>
                  w.spec.replicas == w.status.replicas && !w.status.upgrade
                    && (w.spec.version in w.known ==> !w.Required())))
  }

  // An upgrade that has not stopped the servers yet still has a StatefulSet to stop.
  predicate UpgradeFacts(w: World) {
    w.status.upgrade && !w.status.stopping && w.status.wanted == 0 ==> w.Size() > 0
  }

  ghost predicate Inv(w: World) {
    Base(w) && StoppingFacts(w) && WantedFacts(w) && AwaitingFacts(w) && UpgradeFacts(w)
  }

  lemma InitialInv(w: World)
    requires Initial(w)
    ensures Inv(w)
  {
  }

  // ---- one handler ----

  function Rank(h: Handler): nat {
    match h
    case InitialiseOperandVersion => 0
    case Configure => 1
    case ScheduleGracefulShutdownUpgrade => 2
    case Provision => 3
    case ClusterStatefulSet => 4
    case Expose => 5
    case PodStatus => 6
    case GracefulShutdownUpgrade => 7
    case PodUpkeep => 8
    case GracefulShutdown => 9
    case AwaitUpgrade => 10
    case ClusterScaling => 11
    case StatefulSetRollingUpgrade => 12
    case AwaitPodIps => 13
    case EnableRebalanceAfterScaleUp => 14
    case AwaitWellFormedCondition => 15
    case Tail => 16
  }

  // What a run that has reached the handler of rank `r` has established, `upgrading` being the Upgrade condition at
  // the time the pipeline was built.
  ghost predicate Reached(upgrading: bool, r: nat, w: World) {
    && (r >= 1 ==> w.spec.version in w.known)
    && (r <= 7 ==> w.status.upgrade == upgrading)
    && (3 <= r <= 9 && w.spec.version in w.known ==> w.status.upgrade || !w.Required())
    && (r >= 7 ==> w.cluster.stateful.Some?)
    && (r >= 8 ==> !(w.status.upgrade && !w.status.stopping && w.status.wanted > 0))
    && (r >= 10 ==> w.spec.replicas > 0 && !w.status.graceful)
    && (r >= 11 ==> !w.status.upgrade)
    && (r >= 13 ==> w.Size() == w.spec.replicas)
    && (r >= 14 ==> w.cluster.servers != [])
    && (r >= 15 ==> !w.status.scalingUp)
    && (r >= 16 ==> Stable(w) && |w.cluster.servers| >= w.spec.replicas)
  }

  // The pipeline lists handlers of increasing rank, and leaves out only the provisioning ones.
  ghost predicate Follows(upgrading: bool, a: Handler, b: Handler) {
    Rank(b) == Rank(a) + 1 || (upgrading && a.ScheduleGracefulShutdownUpgrade? && b.PodStatus?)
  }

  lemma PipelineOrder(upgrading: bool)
    ensures var hs := Pipeline(upgrading);
            && hs[0] == InitialiseOperandVersion && hs[|hs| - 1] == Tail
            && (forall k :: 0 <= k < |hs| - 1 ==> Follows(upgrading, hs[k], hs[k + 1]))
            && (upgrading ==> ClusterStatefulSet !in hs)
  {
  }

  // What StopServers leaves behind, whatever fails in it.
  lemma StopServersEffect(c: Run, e: Env)
    requires c.w.cluster.stateful.Some? && !c.w.status.stopping && StoppedPrefix(c.w.cluster.servers)
    ensures var w := c.w;
            var w' := StopServers(c, e).w;
            && w'.spec == w.spec && w'.known == w.known
            && w'.cluster == w.cluster.(servers := w'.cluster.servers, rebalance := w'.cluster.rebalance)
            && |w'.cluster.servers| == |w.cluster.servers| && StoppedPrefix(w'.cluster.servers)
            && (forall k :: 0 <= k < |w.cluster.servers| && w.cluster.servers[k].Down? ==> w'.cluster.servers[k].Down?)
            && (w'.cluster.servers != w.cluster.servers ==> !w'.cluster.rebalance)
            && (if w'.status.stopping
                then w'.status == w.status.(stopping := true, wellFormed := W.False) && w'.past == Past(w.Size(), true)
                     && CheckPods(w, e, 0, false) == Go && AllDown(w'.cluster.servers)
                else w'.status == w.status && w'.past == w.past)
  {
    if CheckPods(c.w, e, 0, false) == Go {
      SweepStopsInOrder(c.w.cluster.servers, c.w.cluster.rebalance, e, 0, false);
    }
  }

  lemma KeepsStopServers(c: Run, e: Env)
    requires Inv(c.w) && c.w.cluster.stateful.Some? && c.w.spec.replicas == 0 && c.w.Size() != 0 && !c.w.status.stopping
    ensures Inv(StopServers(c, e).w) && StopServers(c, e).flow.stop
  {
    StopServersEffect(c, e);
  }

  // Recording the size, and then scaling to zero.
  lemma KeepsSizes(w: World)
    requires Inv(w) && w.cluster.stateful.Some? && w.Size() != 0 && w.status.stopping
    ensures var recorded := w.(status := w.status.(wanted := w.Size()));
            && Inv(recorded)
            && Inv(recorded.(cluster := w.cluster.(stateful := Some(w.cluster.stateful.value.(replicas := 0)))))
  {
  }

  lemma KeepsScaleDown(c: Run, e: Env)
    requires Inv(c.w) && c.w.cluster.stateful.Some? && c.w.Size() != 0 && c.w.status.stopping
    ensures Inv(ScaleDown(c, e).w) && ScaleDown(c, e).flow.stop
  {
    KeepsSizes(c.w);
  }

  lemma KeepsDown(upgrading: bool, w: World)
    requires Inv(w) && Reached(upgrading, 9, w) && w.spec.replicas == 0 && ScaledToZero(w)
    ensures Inv(w.(status := w.status.(graceful := true, stopping := false)))
  {
  }

  lemma KeepsResume(upgrading: bool, w: World)
    requires Inv(w) && Reached(upgrading, 9, w) && w.spec.replicas != 0 && w.status.graceful
    requires w.status.wanted == 0 || w.spec.replicas == w.status.wanted
    ensures Inv(w.(status := w.status.(replicas := w.spec.replicas, wanted := 0, graceful := false, scalingUp := true)))
  {
  }

  lemma KeepsGracefulShutdown(upgrading: bool, c: Run, e: Env)
    requires Inv(c.w) && Reached(upgrading, 9, c.w)
    ensures var c' := HandleGracefulShutdown(c, e);
            Inv(c'.w) && (c'.flow.stop || (c' == c && Reached(upgrading, 10, c.w)))
  {
    var w := c.w;
    if w.spec.replicas == 0 {
      if w.Size() != 0 {
        if w.status.stopping { KeepsScaleDown(c, e); } else { KeepsStopServers(c, e); }
      } else if w.cluster.stateful.value.current == 0 {
        KeepsDown(upgrading, w);
      }
    } else if w.status.graceful && (w.status.wanted == 0 || w.spec.replicas == w.status.wanted) {
      KeepsResume(upgrading, w);
    }
  }

  lemma KeepsRespin(upgrading: bool, w: World)
    requires Inv(w) && Reached(upgrading, 12, w) && w.spec.image.None?
    ensures var w' := w.(status := w.status.(operand := StatusOf(None, Pending, w.known[w.spec.version])));
            Inv(w') && Reached(upgrading, 12, w')
  {
    RecordedOperandIsSettled(None, Pending, w.known[w.spec.version], w.known);
  }

  lemma KeepsScaling(upgrading: bool, w: World)
    requires Inv(w) && Reached(upgrading, 12, w)
    ensures var resized := Some(w.cluster.stateful.value.(replicas := w.spec.replicas));
            var w' := w.(cluster := w.cluster.(stateful := resized));
            Inv(w') && Reached(upgrading, 13, w')
  {
    var w' := w.(cluster := w.cluster.(stateful := Some(w.cluster.stateful.value.(replicas := w.spec.replicas))));
    assert Base(w') && StoppingFacts(w') && WantedFacts(w');
  }

  lemma KeepsRollingUpgrade(upgrading: bool, c: Run, e: Env)
    requires Inv(c.w) && Reached(upgrading, 12, c.w)
    ensures var c' := HandleStatefulSetRollingUpgrade(c, e);
            Inv(c'.w) && (c'.flow.stop || Reached(upgrading, 13, c'.w))
  {
    var w := c.w;
    if w.spec.image.None? {
      KeepsRespin(upgrading, w);
      KeepsScaling(upgrading, w.(status := w.status.(operand := StatusOf(None, Pending, w.known[w.spec.version]))));
    }
    KeepsScaling(upgrading, w);
  }

  lemma KeepsSchedule(upgrading: bool, c: Run, e: Env)
    requires Inv(c.w) && Reached(upgrading, 2, c.w)
    ensures var c' := HandleSchedule(c, e);
            Inv(c'.w) && (c'.flow.stop || (c' == c && Reached(upgrading, 3, c.w)))
  {
    var w := c.w;
    if !w.status.upgrade && w.Required() {
      assert !ResumeWindow(w);
    }
  }

  lemma KeepsClusterStatefulSet(c: Run, e: Env)
    requires Inv(c.w) && Reached(false, 4, c.w)
    ensures var c' := HandleClusterStatefulSet(c, e);
            Inv(c'.w) && (c'.flow.stop || Reached(false, 5, c'.w))
  {
    var w := c.w;
    if w.cluster.stateful.None? {
      var created := w.(cluster := w.cluster.(stateful := Some(StatefulSet(w.spec.replicas, 0, 0))));
      assert Inv(created);
      assert Inv(created.(status := created.status.(replicas := w.spec.replicas)));
    }
  }

  lemma KeepsGracefulShutdownUpgrade(upgrading: bool, c: Run, e: Env)
    requires Inv(c.w) && Reached(upgrading, 7, c.w)
    ensures var c' := HandleGracefulShutdownUpgrade(c, e);
            Inv(c'.w) && (c'.flow.stop || (c' == c && Reached(upgrading, 8, c.w)))
  {
    var w := c.w;
    if w.status.upgrade && !w.status.stopping && w.status.wanted > 0 {
      assert ScaledToZero(w);
      var gone := w.(cluster := w.cluster.(stateful := None));
      assert Inv(gone);
      assert Inv(gone.(spec := gone.spec.(replicas := w.status.wanted), status := gone.status.(upgrade := false)));
      assert Inv(w.(spec := w.spec.(replicas := w.status.wanted), status := w.status.(upgrade := false)));
    }
  }

  // Scaling only touches the bookkeeping of a cluster that is not being restarted.
  lemma KeepsScalingStatus(upgrading: bool, w: World, status: nat, up: bool, down: bool, pvcs: set<nat>)
    requires Inv(w) && Reached(upgrading, 11, w) && !w.past.awaiting
    ensures var w' := w.(status := w.status.(replicas := status, scalingUp := up, scalingDown := down),
                         cluster := w.cluster.(pvcs := pvcs));
            Inv(w') && Reached(upgrading, 12, w')
  {
  }

  // What ClusterScaling leaves behind: the world with some bookkeeping changed, whichever branch was taken.
  lemma ScalingTouches(c: Run, e: Env)
    ensures var w := c.w;
            var w' := HandleClusterScaling(c, e).w;
            w' == w.(status := w.status.(replicas := w'.status.replicas, scalingUp := w'.status.scalingUp,
                                         scalingDown := w'.status.scalingDown),
                     cluster := w.cluster.(pvcs := w'.cluster.pvcs))
  {
  }

  lemma KeepsClusterScaling(upgrading: bool, c: Run, e: Env)
    requires Inv(c.w) && Reached(upgrading, 11, c.w)
    ensures var c' := HandleClusterScaling(c, e);
            && Inv(c'.w) && (c'.flow.stop || Reached(upgrading, 12, c'.w))
            && (c.w.past.awaiting ==> c' == c)
  {
    if c.w.past.awaiting {
      assert c.w.status.replicas == c.w.spec.replicas;
    } else {
      var w' := HandleClusterScaling(c, e).w;
      ScalingTouches(c, e);
      KeepsScalingStatus(upgrading, c.w, w'.status.replicas, w'.status.scalingUp, w'.status.scalingDown,
                         w'.cluster.pvcs);
    }
  }

  lemma KeepsAwaitPodIps(upgrading: bool, c: Run, e: Env)
    requires Inv(c.w) && Reached(upgrading, 13, c.w)
    ensures var c' := HandleAwaitPodIps(c, e);
            Inv(c'.w) && (c'.flow.stop || (c' == c && Reached(upgrading, 14, c.w)))
  {
  }

  lemma KeepsEnableRebalance(upgrading: bool, c: Run, e: Env)
    requires Inv(c.w) && Reached(upgrading, 14, c.w)
    ensures var c' := HandleEnableRebalance(c, e);
            Inv(c'.w) && (c'.flow.stop || (c' == c && Reached(upgrading, 15, c.w)))
  {
    assert Inv(c.w.(cluster := c.w.cluster.(rebalance := true), past := c.w.past.(awaiting := false)));
  }

  lemma KeepsAwaitWellFormed(upgrading: bool, c: Run, e: Env)
    requires Inv(c.w) && Reached(upgrading, 15, c.w)
    ensures var c' := HandleAwaitWellFormed(c, e);
            Inv(c'.w) && (c'.flow.stop || Reached(upgrading, 16, c'.w))
  {
    assert !c.w.status.stopping && !c.w.past.awaiting;
  }

  lemma HandleKeeps(upgrading: bool, h: Handler, c: Run, e: Env)
    requires Inv(c.w) && Reached(upgrading, Rank(h), c.w) && !c.flow.stop
    requires h.ClusterStatefulSet? ==> !upgrading
    ensures var c' := Handle(h, c, e);
            Inv(c'.w) && (c'.flow.stop || Reached(upgrading, Rank(h) + 1, c'.w))
  {
    if h !in e.halts {
      match h
      case ScheduleGracefulShutdownUpgrade => KeepsSchedule(upgrading, c, e);
      case ClusterStatefulSet => KeepsClusterStatefulSet(c, e);
      case GracefulShutdownUpgrade => KeepsGracefulShutdownUpgrade(upgrading, c, e);
      case GracefulShutdown => KeepsGracefulShutdown(upgrading, c, e);
      case ClusterScaling => KeepsClusterScaling(upgrading, c, e);
      case StatefulSetRollingUpgrade => KeepsRollingUpgrade(upgrading, c, e);
      case AwaitPodIps => KeepsAwaitPodIps(upgrading, c, e);
      case EnableRebalanceAfterScaleUp => KeepsEnableRebalance(upgrading, c, e);
      case AwaitWellFormedCondition => KeepsAwaitWellFormed(upgrading, c, e);
      case _ =>
    }
  }

  // ---- whole runs ----

  lemma ReachesNext(upgrading: bool, k: nat, w: World)
    requires k + 1 < |Pipeline(upgrading)| && Reached(upgrading, Rank(Pipeline(upgrading)[k]) + 1, w)
    ensures Reached(upgrading, Rank(Pipeline(upgrading)[k + 1]), w)
  {
    PipelineOrder(upgrading);
    assert Follows(upgrading, Pipeline(upgrading)[k], Pipeline(upgrading)[k + 1]);
  }

  lemma {:induction false} RunKeeps(upgrading: bool, k: nat, c: Run, e: Env)
    requires k < |Pipeline(upgrading)|
    requires Inv(c.w) && Reached(upgrading, Rank(Pipeline(upgrading)[k]), c.w) && !c.flow.stop
    ensures var c' := RunFrom(Pipeline(upgrading), k, c, e);
            Inv(c'.w) && (c'.flow.stop || (Stable(c'.w) && |c'.w.cluster.servers| >= c'.w.spec.replicas))
    decreases |Pipeline(upgrading)| - k
  {
    var hs := Pipeline(upgrading);
    PipelineOrder(upgrading);
    var c' := Handle(hs[k], c, e);
    HandleKeeps(upgrading, hs[k], c, e);
    if !c'.flow.stop && k + 1 < |hs| {
      ReachesNext(upgrading, k, c'.w);
      RunKeeps(upgrading, k + 1, c', e);
    }
  }

  lemma ReconcileKeeps(w: World, e: Env)
    requires Inv(w)
    ensures Inv(Reconcile(w, e))
  {
    PipelineOrder(w.status.upgrade);
    RunKeeps(w.status.upgrade, 0, Run(w, START), e);
  }

  // A run that ends without asking to be run again leaves a stable cluster with all its pods: nothing is left undone
  // silently.
  lemma QuietRunsEndStable(w: World, e: Env)
    requires Inv(w)
    ensures var c := Process(w, e);
            !c.flow.stop ==>
              && Stable(c.w) && |c.w.cluster.servers| >= c.w.spec.replicas
              && !c.w.past.awaiting && c.w.status.wanted == 0
  {
    PipelineOrder(w.status.upgrade);
    RunKeeps(w.status.upgrade, 0, Run(w, START), e);
  }

  lemma StepKeeps(w: World, ev: Event)
    requires Inv(w) && Legal(w, ev)
    ensures Inv(Step(w, ev))
  {
    match ev
    case Reconciled(e) => ReconcileKeeps(w, e);
    case User(replicas, requested, image) =>
    case Pods(servers) =>
      assert forall k :: 0 <= k < |servers| ==> servers[k] in servers;
    case Reported(current, ready) =>
  }

  lemma {:induction false} RunsKeep(w: World, evs: seq<Event>)
    requires Initial(w) && LegalRun(w, evs)
    ensures Inv(Steps(w, evs))
  {
    if evs == [] {
      InitialInv(w);
    } else {
      RunsKeep(w, evs[..|evs| - 1]);
      StepKeeps(Steps(w, evs[..|evs| - 1]), evs[|evs| - 1]);
    }
  }

  // ---- the safety theorems ----

  // What one reconciliation may do to the servers: they are only stopped, never started; they are stopped in list
  // order, with rebalancing disabled, and only when no replica is asked for. Stopping is recorded only with every
  // listed server stopped, and the first server is stopped only in a whole, healthy cluster.
  ghost predicate ServersSafe(w: World, w': World, e: Env) {
    var before, after := w.cluster.servers, w'.cluster.servers;
    && |after| == |before| && StoppedPrefix(after)
    && (forall k :: 0 <= k < |before| && before[k].Down? ==> after[k].Down?)
    && (after != before ==> !w'.cluster.rebalance && w.spec.replicas == 0 && !w.status.stopping)
    && (!w.status.stopping && w'.status.stopping ==> AllDown(after) && w'.past.shutSize == w.Size())
    && (AllUp(before) && (after != before || (!w.status.stopping && w'.status.stopping)) ==>
          forall k :: 0 <= k < |before| ==> ReportsWhole(w, e, k))
  }

  // What one reconciliation may do to the StatefulSet and to the bookkeeping of a restart.
  ghost predicate RestartSafe(w: World, w': World, e: Env) {
    // the StatefulSet is scaled to zero only while Stopping is recorded and with every listed server stopped
    && (w.Size() > 0 && w'.Size() == 0 ==> w.status.stopping && AllDown(w.cluster.servers))
    // and destroyed only by an upgrade, with its size recorded, no replica asked for and no pod left
    && (w.cluster.stateful.Some? && w'.cluster.stateful.None? ==>
          && w.status.upgrade && !w.status.stopping && ScaledToZero(w) && w.cluster.servers == []
          && w.status.wanted == w.past.shutSize > 0)
    // the cluster is resumed with the size it was shut down with
    && (w.past.awaiting && w.status.graceful && !w'.status.graceful ==>
          w'.spec.replicas == w.past.shutSize && w'.status.replicas == w.past.shutSize && w'.status.wanted == 0)
    // its volumes stay until rebalancing is on again
    && (w.past.awaiting ==> w'.cluster.pvcs == w.cluster.pvcs && w'.status.wellFormed != W.True)
    // the restart ends only with rebalancing enabled on a cluster that reports as many members as were shut down
    && (w.past.awaiting && !w'.past.awaiting ==>
          && w'.cluster.rebalance && e.clusterSize == Some(w.past.shutSize) && |w.cluster.servers| == w.past.shutSize
          && w'.Size() == w.past.shutSize && w'.spec.replicas == w.past.shutSize && w'.status.wanted == 0)
  }

  // The part of the world that only the shutdown handlers change.
  ghost predicate Calm(w0: World, w: World) {
    && w.cluster.servers == w0.cluster.servers && w.cluster.rebalance == w0.cluster.rebalance
    && w.status.stopping == w0.status.stopping && w.status.graceful == w0.status.graceful
    && w.status.wanted == w0.status.wanted && w.past.shutSize == w0.past.shutSize && w.past.awaiting == w0.past.awaiting
    && (w0.past.awaiting ==> w.cluster.pvcs == w0.cluster.pvcs)
    && (w0.cluster.stateful.Some? ==> w.cluster.stateful.Some?)
    && (w0.Size() > 0 ==> w.Size() > 0)
  }

  // How a run still in progress at rank `r` relates to the world it started from.
  ghost predicate Carried(w0: World, r: nat, w: World) {
    && Calm(w0, w)
    && w.spec.replicas == w0.spec.replicas && w.status.upgrade == w0.status.upgrade
    && (r <= 12 && w0.cluster.stateful.Some? ==> w.cluster.stateful == w0.cluster.stateful)
    && (r <= 12 && w0.cluster.stateful.None? && w.cluster.stateful.Some? ==> w.Size() == w.spec.replicas)
  }

  lemma SameServersAreSafe(w0: World, w: World, e: Env)
    requires Inv(w0) && w.cluster.servers == w0.cluster.servers
    requires w.status.stopping ==> w0.status.stopping
    ensures ServersSafe(w0, w, e)
  {
  }

  lemma StopServersIsSafe(w0: World, c: Run, e: Env)
    requires Inv(w0) && Inv(c.w) && Carried(w0, 9, c.w) && c.w.cluster.stateful.Some?
    requires c.w.spec.replicas == 0 && c.w.Size() != 0 && !c.w.status.stopping
    ensures ServersSafe(w0, StopServers(c, e).w, e)
  {
    var w := c.w;
    var w' := StopServers(c, e).w;
    KeepsStopServers(c, e);
    StopServersEffect(c, e);
    if AllUp(w.cluster.servers) && CheckPods(w, e, 0, false) == Go {
      FirstShutdownNeedsWholeCluster(w, e);
      forall k | 0 <= k < |w.cluster.servers| ensures ReportsWhole(w0, e, k) { assert ReportsWhole(w, e, k); }
    }
  }

  lemma GracefulShutdownServers(upgrading: bool, w0: World, c: Run, e: Env)
    requires Inv(w0) && Inv(c.w) && Carried(w0, 9, c.w) && Reached(upgrading, 9, c.w)
    ensures ServersSafe(w0, HandleGracefulShutdown(c, e).w, e)
  {
    var w := c.w;
    if w.spec.replicas == 0 && w.Size() != 0 && !w.status.stopping {
      StopServersIsSafe(w0, c, e);
    } else {
      SameServersAreSafe(w0, HandleGracefulShutdown(c, e).w, e);
    }
  }

  lemma GracefulShutdownRestart(upgrading: bool, w0: World, c: Run, e: Env)
    requires Inv(w0) && Inv(c.w) && Carried(w0, 9, c.w) && Reached(upgrading, 9, c.w)
    ensures RestartSafe(w0, HandleGracefulShutdown(c, e).w, e)
  {
    var w := c.w;
    KeepsGracefulShutdown(upgrading, c, e);
    if w.spec.replicas == 0 && w.Size() != 0 && !w.status.stopping {
      StopServersEffect(c, e);
    }
  }

  lemma EnableRebalanceIsSafe(upgrading: bool, w0: World, c: Run, e: Env)
    requires Inv(w0) && Inv(c.w) && Carried(w0, 14, c.w) && Reached(upgrading, 14, c.w)
    ensures var w' := HandleEnableRebalance(c, e).w;
            ServersSafe(w0, w', e) && RestartSafe(w0, w', e)
  {
    KeepsEnableRebalance(upgrading, c, e);
    SameServersAreSafe(w0, HandleEnableRebalance(c, e).w, e);
  }

  lemma DestroyIsSafe(upgrading: bool, w0: World, c: Run, e: Env)
    requires Inv(w0) && Inv(c.w) && Carried(w0, 7, c.w) && Reached(upgrading, 7, c.w)
    ensures var w' := HandleGracefulShutdownUpgrade(c, e).w;
            ServersSafe(w0, w', e) && RestartSafe(w0, w', e)
  {
    KeepsGracefulShutdownUpgrade(upgrading, c, e);
    SameServersAreSafe(w0, HandleGracefulShutdownUpgrade(c, e).w, e);
  }

  predicate Restarts(h: Handler) {
    h.GracefulShutdown? || h.EnableRebalanceAfterScaleUp? || h.GracefulShutdownUpgrade?
  }

  // Every other handler leaves the shutdown state alone.
  lemma RollingUpgradeIsCalm(c: Run, e: Env)
    requires c.w.spec.version in c.w.known && c.w.cluster.stateful.Some? && c.w.spec.replicas > 0
    ensures var w' := HandleStatefulSetRollingUpgrade(c, e).w;
            Calm(c.w, w') && w'.spec == c.w.spec && w'.status.upgrade == c.w.status.upgrade
  {
    var c' := Respin(c, e);
    assert c'.w == c.w.(status := c.w.status.(operand := c'.w.status.operand));
  }

  lemma ScalingIsCalm(upgrading: bool, c: Run, e: Env)
    requires Inv(c.w) && Reached(upgrading, 11, c.w)
    ensures var w' := HandleClusterScaling(c, e).w;
            Calm(c.w, w') && w'.spec == c.w.spec && w'.cluster.stateful == c.w.cluster.stateful
            && w'.status.upgrade == c.w.status.upgrade
  {
    KeepsClusterScaling(upgrading, c, e);
    ScalingTouches(c, e);
  }

  lemma ScheduleIsCalm(c: Run, e: Env)
    ensures var c' := Handle(ScheduleGracefulShutdownUpgrade, c, e);
            Calm(c.w, c'.w) && (c' == c || c'.flow.stop)
  {
  }

  lemma OthersAreCalm(upgrading: bool, h: Handler, c: Run, e: Env)
    requires Inv(c.w) && Reached(upgrading, Rank(h), c.w) && !c.flow.stop && !Restarts(h)
    requires h.ClusterStatefulSet? ==> !upgrading
    ensures var w := c.w;
            var c' := Handle(h, c, e);
            Calm(w, c'.w)
            && (c'.flow.stop || (&& c'.w.spec.replicas == w.spec.replicas && c'.w.status.upgrade == w.status.upgrade
                                 && (c'.w.cluster.stateful == w.cluster.stateful || h.StatefulSetRollingUpgrade?
                                     || (w.cluster.stateful.None? && c'.w.Size() == w.spec.replicas))))
  {
    if h !in e.halts {
      match h
      case ClusterScaling => ScalingIsCalm(upgrading, c, e);
      case StatefulSetRollingUpgrade => RollingUpgradeIsCalm(c, e);
      case ScheduleGracefulShutdownUpgrade => ScheduleIsCalm(c, e);
      case _ =>
    }
  }

  lemma CalmIsSafe(w0: World, w: World, e: Env)
    requires Inv(w0) && Inv(w) && Calm(w0, w)
    ensures ServersSafe(w0, w, e) && RestartSafe(w0, w, e)
  {
    SameServersAreSafe(w0, w, e);
  }

  lemma HandleIsSafe(upgrading: bool, h: Handler, w0: World, c: Run, e: Env)
    requires Inv(w0) && Inv(c.w) && Reached(upgrading, Rank(h), c.w) && Carried(w0, Rank(h), c.w)
    requires h.ClusterStatefulSet? ==> !upgrading
    requires !c.flow.stop
    ensures var w' := Handle(h, c, e).w;
            ServersSafe(w0, w', e) && RestartSafe(w0, w', e)
  {
    if h in e.halts {
      CalmIsSafe(w0, c.w, e);
    } else if h.GracefulShutdown? {
      GracefulShutdownServers(upgrading, w0, c, e);
      GracefulShutdownRestart(upgrading, w0, c, e);
    } else if h.GracefulShutdownUpgrade? {
      DestroyIsSafe(upgrading, w0, c, e);
    } else if h.EnableRebalanceAfterScaleUp? {
      EnableRebalanceIsSafe(upgrading, w0, c, e);
    } else {
      var w' := Handle(h, c, e).w;
      HandleKeeps(upgrading, h, c, e);
      OthersAreCalm(upgrading, h, c, e);
      assert Calm(w0, w');
      CalmIsSafe(w0, w', e);
    }
  }

  lemma HandleCarries(upgrading: bool, h: Handler, w0: World, c: Run, e: Env)
    requires Inv(c.w) && Reached(upgrading, Rank(h), c.w) && Carried(w0, Rank(h), c.w)
    requires h.ClusterStatefulSet? ==> !upgrading
    requires !c.flow.stop
    ensures var c' := Handle(h, c, e);
            c'.flow.stop || Carried(w0, Rank(h) + 1, c'.w)
  {
    if h !in e.halts {
      if Restarts(h) {
        assert Handle(h, c, e).flow.stop || Handle(h, c, e) == c;
      } else {
        OthersAreCalm(upgrading, h, c, e);
      }
    }
  }

  lemma HandlerStep(upgrading: bool, h: Handler, w0: World, c: Run, e: Env)
    requires Inv(w0) && Inv(c.w) && Reached(upgrading, Rank(h), c.w) && Carried(w0, Rank(h), c.w)
    requires h.ClusterStatefulSet? ==> !upgrading
    requires !c.flow.stop
    ensures var c' := Handle(h, c, e);
            && Inv(c'.w) && ServersSafe(w0, c'.w, e) && RestartSafe(w0, c'.w, e)
            && (c'.flow.stop || (Reached(upgrading, Rank(h) + 1, c'.w) && Carried(w0, Rank(h) + 1, c'.w)))
  {
    HandleKeeps(upgrading, h, c, e);
    HandleIsSafe(upgrading, h, w0, c, e);
    HandleCarries(upgrading, h, w0, c, e);
  }

  lemma CarriedToNext(upgrading: bool, k: nat, w0: World, w: World)
    requires k + 1 < |Pipeline(upgrading)| && Carried(w0, Rank(Pipeline(upgrading)[k]) + 1, w)
    ensures Carried(w0, Rank(Pipeline(upgrading)[k + 1]), w)
  {
    PipelineOrder(upgrading);
    assert Follows(upgrading, Pipeline(upgrading)[k], Pipeline(upgrading)[k + 1]);
  }

  lemma {:induction false} RunIsSafe(upgrading: bool, k: nat, w0: World, c: Run, e: Env)
    requires k < |Pipeline(upgrading)|
    requires Inv(w0) && Inv(c.w) && !c.flow.stop
    requires var r := Rank(Pipeline(upgrading)[k]); Reached(upgrading, r, c.w) && Carried(w0, r, c.w)
    ensures var w' := RunFrom(Pipeline(upgrading), k, c, e).w;
            ServersSafe(w0, w', e) && RestartSafe(w0, w', e)
    decreases |Pipeline(upgrading)| - k
  {
    var hs := Pipeline(upgrading);
    PipelineOrder(upgrading);
    var c' := Handle(hs[k], c, e);
    HandlerStep(upgrading, hs[k], w0, c, e);
    if !c'.flow.stop && k + 1 < |hs| {
      ReachesNext(upgrading, k, c'.w);
      CarriedToNext(upgrading, k, w0, c'.w);
      RunIsSafe(upgrading, k + 1, w0, c', e);
    }
  }

  // Every reconciliation of every run is safe, whatever calls fail in it.
  lemma EveryReconcileIsSafe(w: World, evs: seq<Event>, e: Env)
    requires Initial(w) && LegalRun(w, evs)
    ensures var now := Steps(w, evs);
            var next := Reconcile(now, e);
            ServersSafe(now, next, e) && RestartSafe(now, next, e)
  {
    var now := Steps(w, evs);
    RunsKeep(w, evs);
    PipelineOrder(now.status.upgrade);
    RunIsSafe(now.status.upgrade, 0, now, Run(now, START), e);
  }

  // Replica conservation: from the moment Stopping is recorded until rebalancing is enabled again, the StatefulSet
  // asks for no replica or for exactly as many as were shut down, and a recorded size is the size of that shutdown.
  lemma ReplicasAreConserved(w: World, evs: seq<Event>)
    requires Initial(w) && LegalRun(w, evs)
    ensures var now := Steps(w, evs);
            && (now.past.awaiting ==> now.Size() == 0 || now.Size() == now.past.shutSize)
            && (now.status.wanted > 0 && !now.status.stopping ==> now.status.wanted == now.past.shutSize)
            && (!now.past.awaiting ==> now.status.wanted == 0)
  {
    RunsKeep(w, evs);
  }

  // WellFormed is never True between a recorded Stopping and the next successful RebalanceEnable.
  lemma NotWellFormedBeforeRebalance(w: World, evs: seq<Event>)
    requires Initial(w) && LegalRun(w, evs)
    ensures var now := Steps(w, evs); now.past.awaiting ==> now.status.wellFormed != W.True
  {
    RunsKeep(w, evs);
  }
}
