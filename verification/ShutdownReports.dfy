/**
 What a run reports about its own calls: one that ends without an error has done exactly what it would have done with no
 call failing and no handler stopped, but for one deletion.
 */
module ShutdownReports {
  import opened ApiCalls
  import opened FlowControl
  import opened Operands
  import opened ShutdownModel
  import opened ShutdownSafety
  import W = WellFormed

  // Nothing fails but, perhaps, the deletion of the StatefulSet.
  function Faultless(e: Env): Env {
    e.(halts := {}, faults := map[DeleteSet := e.Of(DeleteSet)])
  }

  lemma SameViews(e: Env, n: nat)
    ensures Faultless(e).ViewsOf(n) == e.ViewsOf(n)
  {
  }

  lemma {:induction false} SameVerdict(w: World, e: Env, k: nat, initiated: bool)
    requires k <= |w.cluster.servers|
    ensures CheckPods(w, Faultless(e), k, initiated) == CheckPods(w, e, k, initiated)
    decreases |w.cluster.servers| - k
  {
    if k < |w.cluster.servers| {
      assert Faultless(e).ReplyOf(k) == e.ReplyOf(k);
      SameVerdict(w, e, k + 1, initiated);
      SameVerdict(w, e, k + 1, true);
      SameVerdict(w, e, k + 1, false);
    }
  }

  lemma {:induction false} SameSweep(servers: seq<Server>, rebalance: bool, e: Env, k: nat, disabled: bool)
    requires k <= |servers|
    ensures var s := ShutdownPods(servers, rebalance, e, k, disabled);
            s.done ==> ShutdownPods(servers, rebalance, Faultless(e), k, disabled) == s
    decreases |servers| - k
  {
    if k < |servers| {
      SameSweep(servers, rebalance, e, k + 1, disabled);
      SameSweep(servers[k := Down], if disabled then rebalance else false, e, k + 1, true);
    }
  }

  lemma {:induction false} SameVolumes(pvcs: set<nat>, e: Env, hi: nat, lo: nat)
    ensures var (rest, ok) := DeletePvcs(pvcs, e, hi, lo);
            ok ==> DeletePvcs(pvcs, Faultless(e), hi, lo) == (rest, true)
    decreases hi
  {
    if hi > lo {
      SameVolumes(pvcs - {hi - 1}, e, hi - 1, lo);
    }
  }

  lemma StoppingReports(c: Run, e: Env)
    requires c.w.cluster.stateful.Some?
    ensures StopServers(c, e).flow.err || StopServers(c, e) == StopServers(c, Faultless(e))
  {
    SameVerdict(c.w, e, 0, false);
    SameSweep(c.w.cluster.servers, c.w.cluster.rebalance, e, 0, false);
  }

  lemma ShutdownReport(c: Run, e: Env)
    ensures HandleGracefulShutdown(c, e).flow.err
            || HandleGracefulShutdown(c, e) == HandleGracefulShutdown(c, Faultless(e))
  {
    if c.w.cluster.stateful.Some? && c.w.spec.replicas == 0 && c.w.Size() != 0 && !c.w.status.stopping {
      StoppingReports(c, e);
    }
  }

  lemma ScalingReports(c: Run, e: Env)
    ensures HandleClusterScaling(c, e).flow.err
            || HandleClusterScaling(c, e) == HandleClusterScaling(c, Faultless(e))
  {
    if c.w.cluster.stateful.Some? {
      SameVolumes(c.w.cluster.pvcs, e, c.w.status.replicas, c.w.cluster.stateful.value.current);
    }
  }

  lemma ConditionReports(c: Run, e: Env)
    ensures HandleAwaitWellFormed(c, e).flow.err
            || HandleAwaitWellFormed(c, e) == HandleAwaitWellFormed(c, Faultless(e))
  {
    SameViews(e, |c.w.cluster.servers|);
  }

  lemma RollingReports(c: Run, e: Env)
    requires c.w.spec.version in c.w.known
    ensures HandleStatefulSetRollingUpgrade(c, e).flow.err
            || HandleStatefulSetRollingUpgrade(c, e) == HandleStatefulSetRollingUpgrade(c, Faultless(e))
  {
  }

  lemma HandlerReports(h: Handler, c: Run, e: Env)
    ensures Handle(h, c, e).flow.err || Handle(h, c, e) == Handle(h, c, Faultless(e))
    ensures Handle(h, c, e).flow.err && !c.flow.err ==> Handle(h, c, e).flow.stop
  {
    match h
    case GracefulShutdown => ShutdownReport(c, e);
    case ClusterScaling => ScalingReports(c, e);
    case StatefulSetRollingUpgrade => if c.w.spec.version in c.w.known { RollingReports(c, e); }
    case AwaitWellFormedCondition => ConditionReports(c, e);
    case _ =>
  }

  lemma {:induction false} RunReports(upgrading: bool, k: nat, c: Run, e: Env)
    requires k <= |Pipeline(upgrading)| && !c.flow.err
    ensures var c' := RunFrom(Pipeline(upgrading), k, c, e);
            c'.flow.err || c' == RunFrom(Pipeline(upgrading), k, c, Faultless(e))
    decreases |Pipeline(upgrading)| - k
  {
    var hs := Pipeline(upgrading);
    if k < |hs| {
      HandlerReports(hs[k], c, e);
      var mid := Handle(hs[k], c, e);
      if !mid.flow.stop {
        RunReports(upgrading, k + 1, mid, e);
      }
    }
  }

  // In any state, a run that ends without an error is the run of the same cluster in which every handler is entered and
  // every call but the deletion of the StatefulSet succeeds. The error of that one is erased by the update that
  // follows.
  lemma SilentRunsAreFaultless(w: World, e: Env)
    requires !Process(w, e).flow.err
    ensures Process(w, e) == Process(w, Faultless(e))
  {
    RunReports(w.status.upgrade, 0, Run(w, START), e);
  }

  // ---- calls without an effect ----

  lemma NoVolumeGoes(pvcs: set<nat>, e: Env, hi: nat, lo: nat)
    requires forall call :: e.Of(call) == Failed
    ensures DeletePvcs(pvcs, e, hi, lo).0 == pvcs
  {
  }

  lemma {:induction false} NoServerStops(servers: seq<Server>, rebalance: bool, e: Env, k: nat, disabled: bool)
    requires k <= |servers| && forall call :: e.Of(call) == Failed
    ensures var s := ShutdownPods(servers, rebalance, e, k, disabled);
            s.servers == servers && (s.rebalance == rebalance || disabled)
    decreases |servers| - k
  {
    if k < |servers| {
      NoServerStops(servers, rebalance, e, k + 1, disabled);
    }
  }

  lemma ShutdownChangesNothing(c: Run, e: Env)
    requires forall call :: e.Of(call) == Failed
    ensures HandleGracefulShutdown(c, e).w == c.w
  {
    if c.w.cluster.stateful.Some? && c.w.spec.replicas == 0 && c.w.Size() != 0 && !c.w.status.stopping {
      NoServerStops(c.w.cluster.servers, c.w.cluster.rebalance, e, 0, false);
    }
  }

  lemma ScalingChangesNothing(c: Run, e: Env)
    requires forall call :: e.Of(call) == Failed
    ensures HandleClusterScaling(c, e).w == c.w
  {
    if c.w.cluster.stateful.Some? {
      NoVolumeGoes(c.w.cluster.pvcs, e, c.w.status.replicas, c.w.cluster.stateful.value.current);
    }
  }

  lemma HandlerChangesNothing(h: Handler, c: Run, e: Env)
    requires forall call :: e.Of(call) == Failed
    ensures Handle(h, c, e).w == c.w
  {
    match h
    case GracefulShutdown => ShutdownChangesNothing(c, e);
    case ClusterScaling => ScalingChangesNothing(c, e);
    case _ =>
  }

  lemma {:induction false} RunChangesNothing(upgrading: bool, k: nat, c: Run, e: Env)
    requires k <= |Pipeline(upgrading)| && forall call :: e.Of(call) == Failed
    ensures RunFrom(Pipeline(upgrading), k, c, e).w == c.w
    decreases |Pipeline(upgrading)| - k
  {
    if k < |Pipeline(upgrading)| {
      HandlerChangesNothing(Pipeline(upgrading)[k], c, e);
      var mid := Handle(Pipeline(upgrading)[k], c, e);
      if !mid.flow.stop {
        RunChangesNothing(upgrading, k + 1, mid, e);
      }
    }
  }

  // A reconciliation in which no call has an effect has none: nothing happens but through a call.
  lemma FailuresChangeNothing(w: World, e: Env)
    requires forall call :: e.Of(call) == Failed
    ensures Reconcile(w, e) == w
  {
    RunChangesNothing(w.status.upgrade, 0, Run(w, START), e);
  }
}
