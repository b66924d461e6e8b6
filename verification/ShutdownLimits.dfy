/**
 Where the Shutdown upgrade falls short of what it is meant to keep, and exactly when. The two windows after a resume
 are in ShutdownWindows.
 */
module ShutdownLimits {
  import opened ApiCalls
  import opened FlowControl
  import opened Operands
  import opened ShutdownModel
  import opened ShutdownPodsProofs
  import opened ShutdownSafety
  import opened ShutdownLiveness
  import W = WellFormed

  // The first three handlers let a run go on unchanged, or end it with nothing done but, perhaps, an upgrade scheduled.
  predicate GoesOn(w: World, e: Env) {
    && e.halts !! {InitialiseOperandVersion, Configure, ScheduleGracefulShutdownUpgrade}
    && w.spec.version in w.known && (w.status.upgrade || !w.Required())
  }

  lemma FirstHandlers(w: World, e: Env)
    ensures var u, w' := w.status.upgrade, Reconcile(w, e);
            if GoesOn(w, e) then w' == At(if u then PodStatus else Provision, u, Run(w, START), e).w
            else && w'.status.stopping == w.status.stopping && w'.cluster == w.cluster && (u ==> w' == w)
                 && (w'.status.upgrade && !u ==> w.spec.version in w.known && w.Required())
  {
    var c, u := Run(w, START), w.status.upgrade;
    Unroll(InitialiseOperandVersion, u, c, e);
    if w.spec.version in w.known && InitialiseOperandVersion !in e.halts {
      Unroll(Configure, u, c, e);
      if Configure !in e.halts {
        Unroll(ScheduleGracefulShutdownUpgrade, u, c, e);
        SchedulingEffect(c, e);
      }
    }
  }

  lemma SchedulingEffect(c: Run, e: Env)
    requires c.w.spec.version in c.w.known && !c.flow.stop
    ensures var w, c' := c.w, Handle(ScheduleGracefulShutdownUpgrade, c, e);
            if ScheduleGracefulShutdownUpgrade !in e.halts && (w.status.upgrade || !w.Required()) then c' == c
            else && c'.flow.stop && c'.w.status.stopping == w.status.stopping && c'.w.cluster == w.cluster
                 && (w.status.upgrade ==> c'.w == w) && (c'.w.status.upgrade && !w.status.upgrade ==> w.Required())
  {
  }

  // ---- an upgrade whose StatefulSet is destroyed while the custom resource cannot be updated ----

  predicate Lost(w: World) {
    w.status.upgrade && w.cluster.stateful.None?
  }

  // The handlers up to `GracefulShutdownUpgrade` that an upgrade in progress goes through.
  const BEFORE_DESTRUCTION :=
    {InitialiseOperandVersion, Configure, ScheduleGracefulShutdownUpgrade, PodStatus, GracefulShutdownUpgrade}

  // Only the scheduling handler starts an upgrade.
  lemma StartsNoUpgrade(h: Handler, c: Run, e: Env)
    requires !h.ScheduleGracefulShutdownUpgrade? && !c.w.status.upgrade
    ensures !Handle(h, c, e).w.status.upgrade
  {
    if h.ClusterScaling? {
      ScalingTouches(c, e);
    } else if h.StatefulSetRollingUpgrade? && c.w.cluster.stateful.Some? && c.w.spec.version in c.w.known {
      assert !Respin(c, e).w.status.upgrade;
    }
  }

  lemma {:induction false} NoLateSchedule(upgrading: bool, k: nat, c: Run, e: Env)
    requires 3 <= k <= |Pipeline(upgrading)| && !c.w.status.upgrade
    ensures !RunFrom(Pipeline(upgrading), k, c, e).w.status.upgrade
    decreases |Pipeline(upgrading)| - k
  {
    var hs := Pipeline(upgrading);
    if k < |hs| {
      assert hs[k] != ScheduleGracefulShutdownUpgrade;
      StartsNoUpgrade(hs[k], c, e);
      NoLateSchedule(upgrading, k + 1, Handle(hs[k], c, e), e);
    }
  }

  // The update that records the end of the upgrade takes effect: its spec part goes well, or has nothing to change, and
  // its status part is written.
  predicate Restores(w: World, e: Env) {
    (w.spec.replicas == w.status.wanted || e.Of(RestoreSpec) == Ok) && e.Of(RestoreUpdate) != Failed
  }

  // One reconciliation loses the StatefulSet of an upgrade exactly when the deletion takes effect and the update that
  // should record it does not.
  lemma UpgradeIsLostWhen(w: World, e: Env)
    requires Inv(w) && !Lost(w)
    ensures Lost(Reconcile(w, e)) <==>
            && w.status.upgrade && !w.status.stopping && w.status.wanted > 0 && w.spec.version in w.known
            && e.halts !! BEFORE_DESTRUCTION
            && e.Of(DeleteSet) != Failed && !Restores(w, e)
  {
    var c := Run(w, START);
    FirstHandlers(w, e);
    if GoesOn(w, e) {
      if w.status.upgrade {
        UpgradingRun(c, e);
      } else {
        NoLateSchedule(false, 3, c, e);
      }
    }
  }

  // The error of a failed deletion is not looked at: the upgrade is then over with the StatefulSet of the old release
  // still there, exactly when the deletion has no effect and the update that records the end has one.
  lemma UpgradeKeepsOldSetWhen(w: World, e: Env)
    requires Inv(w) && w.status.upgrade
    ensures var next := Reconcile(w, e);
            !next.status.upgrade && next.cluster.stateful.Some? <==>
              && w.cluster.stateful.Some? && !w.status.stopping && w.status.wanted > 0 && w.spec.version in w.known
              && e.halts !! BEFORE_DESTRUCTION
              && e.Of(DeleteSet) == Failed && Restores(w, e)
    ensures var next := Reconcile(w, e);
            w.status.wanted > 0 && !w.status.stopping && w.cluster.stateful.Some? && w.spec.version in w.known
            && e.halts !! BEFORE_DESTRUCTION && e.Of(RestoreSpec) != Failed ==>
              next.spec.replicas == w.status.wanted
    ensures var next := Reconcile(w, e);
            !next.status.upgrade && next.cluster.stateful.Some? ==>
              && next.spec.replicas == w.status.wanted && next.cluster == w.cluster
              && next.status.operand == w.status.operand
  {
    var c := Run(w, START);
    FirstHandlers(w, e);
    if GoesOn(w, e) {
      if w.cluster.stateful.None? {
        Unroll(PodStatus, true, c, e);
      } else if w.status.wanted > 0 && !w.status.stopping {
        FailedDestruction(c, e);
      } else {
        EarlierRunKeepsUpgrade(c, e);
      }
    }
  }

  lemma FailedDestruction(c: Run, e: Env)
    requires c.w.status.upgrade && !c.w.status.stopping && c.w.status.wanted > 0 && !c.flow.stop
    requires c.w.cluster.stateful.Some?
    ensures var w, next := c.w, At(PodStatus, true, c, e).w;
            && (!next.status.upgrade && next.cluster.stateful.Some? <==>
                  && PodStatus !in e.halts && GracefulShutdownUpgrade !in e.halts
                  && e.Of(DeleteSet) == Failed && Restores(w, e))
            && (!next.status.upgrade && next.cluster.stateful.Some? ==>
                  && next.spec.replicas == w.status.wanted && next.cluster == w.cluster
                  && next.status.operand == w.status.operand)
            && (e.halts !! {PodStatus, GracefulShutdownUpgrade} && e.Of(RestoreSpec) != Failed ==>
                  next.spec.replicas == w.status.wanted)
  {
    Unroll(PodStatus, true, c, e);
    Unroll(GracefulShutdownUpgrade, true, c, e);
  }

  lemma EarlierRunKeepsUpgrade(c: Run, e: Env)
    requires c.w.status.upgrade && (c.w.status.stopping || c.w.status.wanted == 0) && !c.flow.stop
    requires c.w.cluster.stateful.Some? && StoppedPrefix(c.w.cluster.servers)
    ensures At(PodStatus, true, c, e).w.status.upgrade
  {
    PassToGracefulShutdown(true, c, e);
    Unroll(GracefulShutdown, true, c, e);
    var c' := Handle(GracefulShutdown, c, e);
    GracefulShutdownKeepsSet(c, e);
    if !c'.flow.stop {
      Unroll(AwaitUpgrade, true, c', e);
    }
  }

  lemma UpgradingRun(c: Run, e: Env)
    requires Inv(c.w) && c.w.status.upgrade && c.w.spec.version in c.w.known && !c.flow.stop
             && c.w.cluster.stateful.Some?
    ensures Lost(At(PodStatus, true, c, e).w) <==>
            && !c.w.status.stopping && c.w.status.wanted > 0 && PodStatus !in e.halts
            && GracefulShutdownUpgrade !in e.halts
            && e.Of(DeleteSet) != Failed && !Restores(c.w, e)
  {
    if c.w.status.wanted > 0 && !c.w.status.stopping {
      DestructionRun(c, e);
    } else {
      EarlierRunKeepsSet(c, e);
    }
  }

  // The StatefulSet is ready to be destroyed.
  lemma DestructionRun(c: Run, e: Env)
    requires c.w.status.upgrade && !c.w.status.stopping && c.w.status.wanted > 0 && !c.flow.stop
    requires c.w.cluster.stateful.Some?
    ensures Lost(At(PodStatus, true, c, e).w) <==>
            && PodStatus !in e.halts && GracefulShutdownUpgrade !in e.halts
            && e.Of(DeleteSet) != Failed && !Restores(c.w, e)
  {
    Unroll(PodStatus, true, c, e);
    Unroll(GracefulShutdownUpgrade, true, c, e);
  }

  // It is not, yet.
  lemma EarlierRunKeepsSet(c: Run, e: Env)
    requires c.w.status.upgrade && (c.w.status.stopping || c.w.status.wanted == 0) && !c.flow.stop
    requires c.w.cluster.stateful.Some? && StoppedPrefix(c.w.cluster.servers)
    ensures !Lost(At(PodStatus, true, c, e).w)
  {
    PassToGracefulShutdown(true, c, e);
    Unroll(GracefulShutdown, true, c, e);
    var c' := Handle(GracefulShutdown, c, e);
    GracefulShutdownKeepsSet(c, e);
    if !c'.flow.stop {
      Unroll(AwaitUpgrade, true, c', e);
    }
  }

  lemma GracefulShutdownKeepsSet(c: Run, e: Env)
    requires c.w.cluster.stateful.Some? && StoppedPrefix(c.w.cluster.servers)
    ensures var c' := Handle(GracefulShutdown, c, e);
            c'.w.cluster.stateful.Some? && c'.w.status.upgrade == c.w.status.upgrade
  {
    if c.w.spec.replicas == 0 && c.w.Size() != 0 && !c.w.status.stopping {
      StopServersEffect(c, e);
    }
  }

  // From then on nothing helps: whatever the platform, the user and the operator do, the upgrade is still in progress
  // and there is no StatefulSet, because the pipeline of an upgrade does not create one and stops without it.
  lemma {:induction false} LostForGood(w: World, evs: seq<Event>)
    requires Lost(w)
    ensures Lost(Steps(w, evs)) && Steps(w, evs).status == w.status
  {
    if evs != [] {
      var before, last := Steps(w, evs[..|evs| - 1]), evs[|evs| - 1];
      LostForGood(w, evs[..|evs| - 1]);
      if last.Reconciled? {
        LostRun(before, last.e);
      }
    }
  }

  lemma LostRun(w: World, e: Env)
    requires Lost(w)
    ensures Reconcile(w, e) == w
  {
    var c := Run(w, START);
    Unroll(InitialiseOperandVersion, true, c, e);
    if w.spec.version in w.known {
      Unroll(Configure, true, c, e);
      Unroll(ScheduleGracefulShutdownUpgrade, true, c, e);
      Unroll(PodStatus, true, c, e);
    }
  }

  // ---- a change of replicas between the resume and the scale up ----

  // The resume erases the recorded size before the StatefulSet is scaled up. Setting the replicas to 0 in between
  // records a second shutdown without a size, and the cluster then resumes with any number of replicas.
  lemma EditAfterResumeForgetsSize(w: World, m: nat, e: Env)
    requires Inv(w) && ResumeWindow(w) && ScaledToZero(w) && w.spec.version in w.known
    requires m > 0 && e.halts == {} && e.faults == map[]
    ensures var down := Reconcile(w.(spec := w.spec.(replicas := 0)), e);
            var up := Reconcile(down.(spec := down.spec.(replicas := m)), e);
            && down.status.graceful && down.status.wanted == 0
            && up.spec.replicas == up.status.replicas == m && up.status.scalingUp && !up.status.graceful
            && up.past.awaiting
            && (m != w.past.shutSize ==> up.status.replicas != up.past.shutSize)
  {
    var off := w.(spec := w.spec.(replicas := 0));
    Shutdown(off, e);
    var down := Reconcile(off, e);
    Shutdown(down.(spec := down.spec.(replicas := m)), e);
  }

  // A run of a cluster that exists and is not being upgraded is decided by GracefulShutdown.
  lemma Shutdown(w: World, e: Env)
    requires !w.status.upgrade && w.spec.version in w.known && !w.Required() && w.cluster.stateful.Some?
             && e.halts == {}
    ensures var c' := HandleGracefulShutdown(Run(w, START), e);
            Process(w, e) == if c'.flow.stop then c' else At(AwaitUpgrade, false, c', e)
  {
    var c := Run(w, START);
    Front(w, e);
    Unroll(Provision, false, c, e);
    Unroll(ClusterStatefulSet, false, c, e);
    Unroll(Expose, false, c, e);
    ToGracefulShutdown(false, c, e);
    Unroll(GracefulShutdown, false, c, e);
  }

  // ---- a new version between the resume and the scale up ----

  predicate EmptyUpgrade(w: World) {
    w.status.upgrade && !w.status.stopping && w.status.wanted == 0 && w.cluster.stateful.Some? && w.Size() == 0
  }

  // In the same window a change of version or image that requires an upgrade schedules one for a cluster with nothing
  // to stop.
  lemma UpgradeAfterResumeIsEmpty(w: World, requested: Version, image: Option<string>, e: Env)
    requires Inv(w) && ResumeWindow(w) && requested in w.known && e.halts == {} && e.faults == map[]
    ensures var asked := w.(spec := w.spec.(version := requested, image := image));
            var next := Reconcile(asked, e);
            EmptyUpgrade(next) <==> asked.Required()
  {
    var asked := w.(spec := w.spec.(version := requested, image := image));
    var c := Run(asked, START);
    FirstHandlers(asked, e);
    if asked.Required() {
      Unroll(InitialiseOperandVersion, false, c, e);
      Unroll(Configure, false, c, e);
      Unroll(ScheduleGracefulShutdownUpgrade, false, c, e);
    } else {
      NoLateSchedule(false, 3, c, e);
    }
  }

  // Such an upgrade never ends, whatever happens next.
  lemma {:induction false} EmptyUpgradeForGood(w: World, evs: seq<Event>)
    requires EmptyUpgrade(w)
    ensures EmptyUpgrade(Steps(w, evs))
  {
    if evs != [] {
      var before, last := Steps(w, evs[..|evs| - 1]), evs[|evs| - 1];
      EmptyUpgradeForGood(w, evs[..|evs| - 1]);
      if last.Reconciled? {
        EmptyUpgradeRun(before, last.e);
      }
    }
  }

  lemma EmptyUpgradeRun(w: World, e: Env)
    requires EmptyUpgrade(w)
    ensures EmptyUpgrade(Reconcile(w, e))
  {
    var c := Run(w, START);
    FirstHandlers(w, e);
    if GoesOn(w, e) {
      PassToGracefulShutdown(true, c, e);
      EmptyUpgradeEnd(c, e);
    }
  }

  lemma EmptyUpgradeEnd(c: Run, e: Env)
    requires EmptyUpgrade(c.w)
    ensures EmptyUpgrade(At(GracefulShutdown, true, c, e).w)
  {
    Unroll(GracefulShutdown, true, c, e);
    EmptyUpgradeKept(c, e);
    var c' := Handle(GracefulShutdown, c, e);
    if !c'.flow.stop {
      Unroll(AwaitUpgrade, true, c', e);
    }
  }

  lemma EmptyUpgradeKept(c: Run, e: Env)
    requires EmptyUpgrade(c.w)
    ensures EmptyUpgrade(Handle(GracefulShutdown, c, e).w)
  {
  }

  // ---- a change of replicas while the StatefulSet is being rebuilt ----

  // ClusterStatefulSet runs before GracefulShutdown compares the replicas with the recorded size: with any other
  // number the StatefulSet is created at that number, and the cluster is then blocked until the user corrects it.
  lemma RebuildFollowsTheSpec(w: World, m: nat, e: Env)
    requires Inv(w) && RebuildWindow(w) && m > 0 && w.spec.version in w.known && e.halts == {} && e.faults == map[]
    ensures var next := Reconcile(w.(spec := w.spec.(replicas := m)), e);
            && next.cluster.stateful.Some? && next.Size() == m
            && (Blocked(next) <==> m != w.past.shutSize)
  {
    var asked := w.(spec := w.spec.(replicas := m));
    var c := Run(asked, START);
    assert asked.status.operand.phase == Pending && !asked.Required();
    Front(asked, e);
    Unroll(Provision, false, c, e);
    Unroll(ClusterStatefulSet, false, c, e);
    var created := Handle(ClusterStatefulSet, c, e);
    Unroll(Expose, false, created, e);
    ToGracefulShutdown(false, created, e);
    Unroll(GracefulShutdown, false, created, e);
  }

  // ---- replicas raised while the servers are being stopped ----

  // Only the shutdown handler, and only with no replica asked for, changes the Stopping condition or a server.
  lemma LeavesServersAlone(h: Handler, c: Run, e: Env)
    requires h.GracefulShutdown? ==> c.w.spec.replicas > 0
    ensures var w' := Handle(h, c, e).w;
            w'.status.stopping == c.w.status.stopping && w'.cluster.servers == c.w.cluster.servers
            && (!h.ScheduleGracefulShutdownUpgrade? && c.w.spec.replicas > 0 && !c.w.status.upgrade
                ==> w'.spec == c.w.spec)
  {
    if h.ClusterScaling? {
      ScalingTouches(c, e);
    } else if h.StatefulSetRollingUpgrade? {
      RollingUpgradeTouches(c, e);
    }
  }

  lemma RollingUpgradeTouches(c: Run, e: Env)
    ensures var w' := Handle(StatefulSetRollingUpgrade, c, e).w;
            && w'.status.stopping == c.w.status.stopping && w'.cluster.servers == c.w.cluster.servers
            && w'.spec == c.w.spec
  {
    if c.w.cluster.stateful.Some? && c.w.spec.version in c.w.known {
      var w1 := Respin(c, e).w;
      assert w1 == c.w.(status := c.w.status.(operand := w1.status.operand));
    }
  }

  lemma {:induction false} RunLeavesServersAlone(k: nat, c: Run, e: Env)
    requires 3 <= k <= |Pipeline(false)| && c.w.spec.replicas > 0 && !c.w.status.upgrade
    ensures var w' := RunFrom(Pipeline(false), k, c, e).w;
            w'.status.stopping == c.w.status.stopping && w'.cluster.servers == c.w.cluster.servers
    decreases |Pipeline(false)| - k
  {
    var hs := Pipeline(false);
    if k < |hs| {
      assert hs[k] != ScheduleGracefulShutdownUpgrade;
      LeavesServersAlone(hs[k], c, e);
      StartsNoUpgrade(hs[k], c, e);
      RunLeavesServersAlone(k + 1, Handle(hs[k], c, e), e);
    }
  }

  // Raising the replicas while Stopping is True, with no upgrade in progress or required: whatever calls fail, the next
  // reconciliation leaves Stopping True and starts no server, so the stopped servers serve nobody and the cluster is
  // not stable.
  lemma RaisedWhileStoppingStalls(w: World, m: nat, e: Env)
    requires Inv(w) && w.status.stopping && !w.status.upgrade && m > 0
    requires w.spec.version in w.known ==> !w.Required()
    ensures var next := Reconcile(w.(spec := w.spec.(replicas := m)), e);
            next.status.stopping && AllDown(next.cluster.servers) && next.cluster.servers == w.cluster.servers
              && !Stable(next)
  {
    var asked := w.(spec := w.spec.(replicas := m));
    FirstHandlers(asked, e);
    if GoesOn(asked, e) {
      RunLeavesServersAlone(3, Run(asked, START), e);
    }
  }

  // ---- when Stopping is recorded ----

  // The handlers a run has to get through before it can record Stopping.
  function OnTheWay(upgrading: bool): set<Handler> {
    {InitialiseOperandVersion, Configure, ScheduleGracefulShutdownUpgrade, PodStatus, GracefulShutdownUpgrade,
     PodUpkeep, GracefulShutdown}
    + (if upgrading then {} else {Provision, ClusterStatefulSet, Expose})
  }

  // The run gets to stopping the servers.
  predicate StopsServers(w: World, e: Env) {
    && e.halts !! OnTheWay(w.status.upgrade) && w.spec.version in w.known && (w.status.upgrade || !w.Required())
    && !(w.status.upgrade && w.status.wanted > 0)
    && w.cluster.stateful.Some? && w.spec.replicas == 0 && w.Size() != 0
  }

  lemma RecordedFromPodStatus(c: Run, e: Env)
    requires !c.flow.stop && !c.w.status.stopping && c.w.spec.version in c.w.known
    requires c.w.cluster.stateful.Some? ==> StoppedPrefix(c.w.cluster.servers)
    ensures var u := c.w.status.upgrade;
            At(PodStatus, u, c, e).w.status.stopping <==>
              && e.halts !! {PodStatus, GracefulShutdownUpgrade, PodUpkeep, GracefulShutdown}
              && !(u && c.w.status.wanted > 0)
              && c.w.cluster.stateful.Some? && c.w.spec.replicas == 0 && c.w.Size() != 0
              && StopServers(c, e).w.status.stopping
  {
    var u := c.w.status.upgrade;
    if u && c.w.status.wanted > 0 {
      DestructionRecordsNothing(c, e);
    } else {
      Unroll(PodStatus, u, c, e);
      if !Handle(PodStatus, c, e).flow.stop {
        RecordedFromDestruction(c, e);
      }
    }
  }

  lemma RecordedFromDestruction(c: Run, e: Env)
    requires !c.flow.stop && !c.w.status.stopping && !(c.w.status.upgrade && c.w.status.wanted > 0)
    requires c.w.cluster.stateful.Some? && StoppedPrefix(c.w.cluster.servers)
    ensures At(GracefulShutdownUpgrade, c.w.status.upgrade, c, e).w.status.stopping <==>
              && e.halts !! {GracefulShutdownUpgrade, PodUpkeep, GracefulShutdown}
              && c.w.spec.replicas == 0 && c.w.Size() != 0 && StopServers(c, e).w.status.stopping
  {
    var u := c.w.status.upgrade;
    Unroll(GracefulShutdownUpgrade, u, c, e);
    if !Handle(GracefulShutdownUpgrade, c, e).flow.stop {
      Unroll(PodUpkeep, u, c, e);
      if !Handle(PodUpkeep, c, e).flow.stop {
        RecordedFromGracefulShutdown(u, c, e);
      }
    }
  }

  lemma DestructionRecordsNothing(c: Run, e: Env)
    requires c.w.status.upgrade && !c.w.status.stopping && c.w.status.wanted > 0 && !c.flow.stop
    ensures !At(PodStatus, true, c, e).w.status.stopping
  {
    Unroll(PodStatus, true, c, e);
    if !Handle(PodStatus, c, e).flow.stop {
      Unroll(GracefulShutdownUpgrade, true, c, e);
    }
  }

  lemma RecordedFromGracefulShutdown(upgrading: bool, c: Run, e: Env)
    requires !c.flow.stop && !c.w.status.stopping && c.w.cluster.stateful.Some? && StoppedPrefix(c.w.cluster.servers)
    ensures At(GracefulShutdown, upgrading, c, e).w.status.stopping <==>
              GracefulShutdown !in e.halts && c.w.spec.replicas == 0 && c.w.Size() != 0
                && StopServers(c, e).w.status.stopping
  {
    Unroll(GracefulShutdown, upgrading, c, e);
    HandlerRecords(c, e);
    if !Handle(GracefulShutdown, c, e).flow.stop {
      LateRunLeavesServersAlone(upgrading, Index(upgrading, AwaitUpgrade), c, e);
    }
  }

  lemma HandlerRecords(c: Run, e: Env)
    requires !c.flow.stop && !c.w.status.stopping && c.w.cluster.stateful.Some?
    ensures var c' := Handle(GracefulShutdown, c, e);
            && (c'.w.status.stopping <==>
                  GracefulShutdown !in e.halts && c.w.spec.replicas == 0 && c.w.Size() != 0
                  && StopServers(c, e).w.status.stopping)
            && (c'.flow.stop || c' == c)
            && (c'.w.status.stopping ==> c'.flow.stop)
  {
  }

  lemma {:induction false} LateRunLeavesServersAlone(upgrading: bool, k: nat, c: Run, e: Env)
    requires Index(upgrading, AwaitUpgrade) <= k <= |Pipeline(upgrading)|
    ensures RunFrom(Pipeline(upgrading), k, c, e).w.status.stopping == c.w.status.stopping
    decreases |Pipeline(upgrading)| - k
  {
    var hs := Pipeline(upgrading);
    if k < |hs| {
      assert hs[k] != GracefulShutdown;
      LeavesServersAlone(hs[k], c, e);
      LateRunLeavesServersAlone(upgrading, k + 1, Handle(hs[k], c, e), e);
    }
  }

  // A reconciliation records Stopping exactly when it gets to stopping the servers, the checks let it go ahead, every
  // call of the second loop goes well, and the update takes effect.
  lemma StoppingIsRecordedWhen(w: World, e: Env)
    requires Inv(w) && !w.status.stopping
    ensures Reconcile(w, e).status.stopping <==>
              && StopsServers(w, e) && CheckPods(w, e, 0, false) == Go
              && ShutdownPods(w.cluster.servers, w.cluster.rebalance, e, 0, false).done
              && e.Of(StoppingUpdate) != Failed
  {
    var c := Run(w, START);
    FirstHandlers(w, e);
    if GoesOn(w, e) {
      if w.status.upgrade {
        RecordedFromPodStatus(c, e);
      } else {
        RecordedFromProvision(c, e);
      }
    }
  }

  lemma RecordedFromProvision(c: Run, e: Env)
    requires Inv(c.w) && !c.flow.stop && !c.w.status.stopping && !c.w.status.upgrade && c.w.spec.version in c.w.known
    ensures At(Provision, false, c, e).w.status.stopping <==>
              && e.halts !! {Provision, ClusterStatefulSet, Expose, PodStatus, GracefulShutdownUpgrade, PodUpkeep,
                             GracefulShutdown}
              && c.w.cluster.stateful.Some? && c.w.spec.replicas == 0 && c.w.Size() != 0
              && StopServers(c, e).w.status.stopping
  {
    Unroll(Provision, false, c, e);
    if !Handle(Provision, c, e).flow.stop {
      Unroll(ClusterStatefulSet, false, c, e);
      var c1 := Handle(ClusterStatefulSet, c, e);
      if !c1.flow.stop {
        Unroll(Expose, false, c1, e);
        if !Handle(Expose, c1, e).flow.stop {
          RecordedFromPodStatus(c1, e);
        }
      }
    }
  }

  // An empty pod list counts as stopped: Stopping is recorded although no server has been shut down, now or before,
  // exactly when the list is empty, the run gets that far and the update takes effect.
  lemma EmptyPodListCountsAsStopped(w: World, e: Env)
    requires Inv(w) && !w.status.stopping
    ensures var w' := Reconcile(w, e);
            w'.status.stopping && AllUp(w'.cluster.servers) <==>
              w.cluster.servers == [] && StopsServers(w, e) && e.Of(StoppingUpdate) != Failed
  {
    StoppingIsRecordedWhen(w, e);
    ReconcileKeeps(w, e);
    PipelineOrder(w.status.upgrade);
    RunIsSafe(w.status.upgrade, 0, w, Run(w, START), e);
    var w' := Reconcile(w, e);
    if w'.status.stopping && w'.cluster.servers != [] {
      assert w'.cluster.servers[0].Down?;
    }
    if w.cluster.servers == [] {
      assert ShutdownPods([], w.cluster.rebalance, e, 0, false).done;
    }
  }

  // ---- the volumes removed by a scale down ----

  // The loop works downwards and stops at the first error: what is left is everything outside the range and the lower
  // part of it, down to nothing when no call fails.
  lemma {:induction false} PvcLoopWorksDownwards(pvcs: set<nat>, e: Env, hi: nat, lo: nat)
    ensures var (rest, ok) := DeletePvcs(pvcs, e, hi, lo);
            && (forall k :: k in pvcs && !(lo <= k < hi) ==> k in rest)
            && (forall k :: k in rest ==> k in pvcs)
            && (forall j, k :: lo <= j < k < hi && j in pvcs && j !in rest ==> k !in rest)
            && (ok ==> forall k :: lo <= k < hi ==> k !in rest)
    decreases hi
  {
    if hi > lo && e.Of(DeletePvc(hi - 1)) == Ok {
      PvcLoopWorksDownwards(pvcs - {hi - 1}, e, hi - 1, lo);
    }
  }

  // Volumes are removed only from the top of a scale down to a positive number, once it has been recorded, the
  // StatefulSet has been given the new size, and no more pods are ready than that.
  lemma VolumesAreRemovedOnlyWhen(c: Run, e: Env, k: nat)
    requires k in c.w.cluster.pvcs && k !in HandleClusterScaling(c, e).w.cluster.pvcs
    ensures var w := c.w;
            && w.status.scalingDown && 0 < w.spec.replicas < w.status.replicas
            && w.cluster.stateful.Some? && w.Size() == w.spec.replicas
            && w.cluster.stateful.value.ready <= w.spec.replicas
            && w.cluster.stateful.value.current <= k < w.status.replicas
  {
    if c.w.cluster.stateful.Some? {
      PvcLoopWorksDownwards(c.w.cluster.pvcs, e, c.w.status.replicas, c.w.cluster.stateful.value.current);
    }
  }

  // The loop starts at the reported pod count instead of the requested one, so the volumes of all the pods that stay
  // are sure to survive exactly when the report is not below the request.
  lemma SurvivingVolumesAreKeptWhen(w: World, e: Env)
    requires e.faults == map[] && w.cluster.stateful.Some? && w.spec.replicas > 0 && w.status.scalingDown
    requires w.Size() == w.spec.replicas < w.status.replicas
    requires w.cluster.stateful.value.ready <= w.spec.replicas
    requires forall k :: 0 <= k < w.status.replicas ==> k in w.cluster.pvcs
    requires w.status.scalingUp ==> w.cluster.stateful.value.ready == w.spec.replicas
    ensures var kept := HandleClusterScaling(Run(w, START), e).w.cluster.pvcs;
            (forall k :: 0 <= k < w.spec.replicas ==> k in kept)
              <==> w.cluster.stateful.value.current >= w.spec.replicas
    ensures var kept := HandleClusterScaling(Run(w, START), e).w.cluster.pvcs;
            forall k :: k in kept <==>
                k in w.cluster.pvcs && !(w.cluster.stateful.value.current <= k < w.status.replicas)
  {
    var current := w.cluster.stateful.value.current;
    PvcLoopWorksDownwards(w.cluster.pvcs, e, w.status.replicas, current);
    PvcsAreDeleted(w.cluster.pvcs, e, w.status.replicas, current);
    var kept := HandleClusterScaling(Run(w, START), e).w.cluster.pvcs;
    assert kept == if w.status.replicas == current then w.cluster.pvcs
                   else DeletePvcs(w.cluster.pvcs, e, w.status.replicas, current).0;
    if current < w.spec.replicas {
      assert current !in kept;
    }
  }
}
