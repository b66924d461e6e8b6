/**
 The handlers as the operator executes them: one object holding the stored state, changed field by field, with the pod
 loops, the volume loop and the handler loop written as loops. Every method is proved to do exactly what the function
 of the same handler in ShutdownModel says, so all that is proved about runs holds of this code.
 */
module ShutdownOperator {
  import opened ApiCalls
  import opened FlowControl
  import opened Operands
  import opened ShutdownModel
  import W = WellFormed

  class Operator {
    const known: Manager
    const flow: FlowCtrl
    var spec: Spec
    var status: Status
    var stateful: Option<StatefulSet>
    var servers: seq<Server>
    var rebalance: bool
    var pvcs: set<nat>
    ghost var past: Past

    ghost function Stored(): World
      reads this
    {
      World(known, spec, status, Cluster(stateful, servers, rebalance, pvcs), past)
    }

    ghost function View(): Run
      reads this, flow
    {
      Run(Stored(), flow.View())
    }

    constructor (w: World)
      ensures View() == Run(w, START) && fresh(flow)
    {
      known, spec, status, past := w.known, w.spec, w.status, w.past;
      stateful, servers, rebalance, pvcs := w.cluster.stateful, w.cluster.servers, w.cluster.rebalance, w.cluster.pvcs;
      flow := new FlowCtrl();
    }

    // Writing the status: a call that reports failure may or may not have taken effect.
    method UpdateInfinispan(o: Outcome, newStatus: Status) returns (err: bool)
      modifies this`status
      ensures err <==> o != Ok
      ensures status == if o == Failed then old(status) else newStatus
    {
      if o != Failed {
        status := newStatus;
      }
      err := o != Ok;
    }

    // Writing the spec as well: it is patched first, unless it stays as it is, and the status only if that went well.
    method UpdateBoth(specOutcome: Outcome, replicas: nat, o: Outcome, newStatus: Status) returns (err: bool)
      modifies this`spec, this`status
      ensures var (w, s) := PatchSpec(old(Stored()), replicas, specOutcome);
              && spec == w.spec && (err <==> s != Ok || o != Ok)
              && status == if s != Ok || o == Failed then old(status) else newStatus
    {
      if spec.replicas != replicas {
        if specOutcome != Failed {
          spec := spec.(replicas := replicas);
        }
        if specOutcome != Ok {
          return true;
        }
      }
      err := UpdateInfinispan(o, newStatus);
    }

    // ---- GracefulShutdown ----

    method CheckServers(e: Env) returns (verdict: Verdict, skip: map<nat, bool>)
      requires stateful.Some?
      ensures verdict == CheckPods(Stored(), e, 0, false)
      ensures verdict == Go ==> forall k :: 0 <= k < |servers| ==> k in skip && (skip[k] <==> servers[k].Down?)
    {
      skip := map[];
      var shutdownAlreadyInitiated := false;
      var k := 0;
      while k < |servers|
        invariant 0 <= k <= |servers|
        invariant CheckPods(Stored(), e, k, shutdownAlreadyInitiated) == CheckPods(Stored(), e, 0, false)
        invariant forall j :: 0 <= j < k ==> j in skip && (skip[j] <==> servers[j].Down?)
      {
        var r := e.ReplyOf(k);
        skip := skip[k := false];
        if !r.reached {
          return Unreachable, skip;
        }
        if servers[k].Down? {
          skip := skip[k := true];
          shutdownAlreadyInitiated := true;
        } else if !shutdownAlreadyInitiated {
          if r.size.None? {
            return Unreachable, skip;
          }
          if r.size.value != stateful.value.replicas {
            return NotWhole, skip;
          }
          if r.healthy.None? {
            return Unreachable, skip;
          }
          if !r.healthy.value {
            return (if r.detail then NotWhole else Unreachable), skip;
          }
        }
        k := k + 1;
      }
      verdict := Go;
    }

    method ShutdownServers(e: Env, skip: map<nat, bool>) returns (done: bool)
      requires forall k :: 0 <= k < |servers| ==> k in skip && (skip[k] <==> servers[k].Down?)
      modifies this`servers, this`rebalance
      ensures Sweep(servers, rebalance, done) == ShutdownPods(old(servers), old(rebalance), e, 0, false)
    {
      var rebalanceDisabled := false;
      var k := 0;
      while k < |servers|
        invariant 0 <= k <= |servers| == |old(servers)|
        invariant forall j :: k <= j < |servers| ==> servers[j] == old(servers)[j]
        invariant ShutdownPods(servers, rebalance, e, k, rebalanceDisabled)
               == ShutdownPods(old(servers), old(rebalance), e, 0, false)
      {
        if !skip[k] {
          if !rebalanceDisabled {
            if e.Of(RebalanceOff) != Failed {
              rebalance := false;
            }
            if e.Of(RebalanceOff) != Ok {
              return false;
            }
            rebalanceDisabled := true;
          }
          if e.Of(ShutdownPod(k)) != Failed {
            servers := servers[k := Down];
          }
          if e.Of(ShutdownPod(k)) != Ok {
            return false;
          }
        }
        k := k + 1;
      }
      done := true;
    }

    method StopAllServers(e: Env)
      requires stateful.Some?
      modifies this, flow
      ensures View() == StopServers(old(View()), e)
    {
      var verdict, skip := CheckServers(e);
      if verdict == Unreachable {
        flow.Requeue(true);
        return;
      }
      if verdict == NotWhole {
        flow.RequeueAfter(WAIT_PODS_NOT_READY, true);
        return;
      }
      var done := ShutdownServers(e, skip);
      if !done {
        flow.Requeue(true);
        return;
      }
      var err := UpdateInfinispan(e.Of(StoppingUpdate), status.(stopping := true, wellFormed := W.False));
      if e.Of(StoppingUpdate) != Failed {
        past := past.(shutSize := stateful.value.replicas, awaiting := true);
      }
      flow.Requeue(err);
    }

    method GracefulShutdown(e: Env)
      modifies this, flow
      ensures View() == HandleGracefulShutdown(old(View()), e)
    {
      if stateful.None? {
        flow.Requeue(false);
        return;
      }
      if spec.replicas == 0 {
        if stateful.value.replicas != 0 {
          if !status.stopping {
            StopAllServers(e);
            return;
          }
          var err := UpdateInfinispan(e.Of(WantedUpdate), status.(wanted := stateful.value.replicas));
          if err {
            flow.Requeue(true);
          } else {
            if e.Of(ScaleToZero) != Failed {
              stateful := Some(stateful.value.(replicas := 0));
            }
            flow.Requeue(e.Of(ScaleToZero) != Ok);
          }
          return;
        }
        if stateful.value.current == 0 {
          if e.Of(ScaleListener) != Ok {
            flow.Requeue(true);
            return;
          }
          var err := UpdateInfinispan(e.Of(DownUpdate), status.(graceful := true, stopping := false));
          flow.Requeue(err);
        } else {
          flow.Requeue(false);
        }
        return;
      }
      if status.graceful {
        if status.wanted != 0 && spec.replicas != status.wanted {
          flow.Requeue(true);
          return;
        }
        var resumed := status.(replicas := spec.replicas, wanted := 0, graceful := false, scalingUp := true);
        var err := UpdateInfinispan(e.Of(ResumeUpdate), resumed);
        flow.Requeue(err);
      }
    }

    method ScheduleGracefulShutdownUpgrade(e: Env)
      requires spec.version in known
      modifies this, flow
      ensures View() == HandleSchedule(old(View()), e)
    {
      if status.upgrade {
        return;
      }
      if UpgradeRequired(status.operand, spec.image, known[spec.version], known) {
        var operand := StatusOf(spec.image, Pending, known[spec.version]);
        var err := UpdateBoth(e.Of(ScheduleSpec), 0, e.Of(ScheduleUpdate),
                              status.(upgrade := true, operand := operand));
        flow.Requeue(err);
      }
    }

    method GracefulShutdownUpgrade(e: Env)
      modifies this, flow
      ensures View() == HandleGracefulShutdownUpgrade(old(View()), e)
    {
      if status.upgrade && !status.stopping && status.wanted > 0 {
        if e.Of(DeleteSet) != Failed {
          stateful := None;
        }
        var err := UpdateBoth(e.Of(RestoreSpec), status.wanted, e.Of(RestoreUpdate), status.(upgrade := false));
        flow.Requeue(err);
      }
    }

    method EnableRebalanceAfterScaleUp(e: Env)
      modifies this, flow
      ensures View() == HandleEnableRebalance(old(View()), e)
    {
      if spec.replicas > 0 && status.scalingUp {
        if stateful.None? {
          flow.Requeue(false);
          return;
        }
        if stateful.value.current != spec.replicas || |servers| != spec.replicas || !e.anyReady {
          flow.RequeueAfter(WAIT_PODS_NOT_READY, false);
          return;
        }
        if e.clusterSize.None? {
          flow.Requeue(true);
          return;
        }
        if e.clusterSize.value != spec.replicas {
          flow.RequeueAfter(WAIT_PODS_NOT_READY, false);
          return;
        }
        if e.Of(RebalanceOn) != Failed {
          rebalance := true;
          past := past.(awaiting := false);
        }
        if e.Of(RebalanceOn) != Ok {
          flow.Requeue(true);
          return;
        }
        var err := UpdateInfinispan(e.Of(ScaledUpUpdate), status.(scalingUp := false));
        flow.Requeue(err);
      }
    }

    // ---- ClusterScaling ----

    // The volumes of the pods that are gone, highest index first.
    method RemoveVolumes(e: Env, statusReplicas: nat, currentReplicas: nat) returns (ok: bool)
      modifies this`pvcs
      ensures (pvcs, ok) == DeletePvcs(old(pvcs), e, statusReplicas, currentReplicas)
    {
      var idx: int := statusReplicas - 1;
      while idx >= currentReplicas
        invariant -1 <= idx < statusReplicas
        invariant DeletePvcs(pvcs, e, idx + 1, currentReplicas)
                  == DeletePvcs(old(pvcs), e, statusReplicas, currentReplicas)
      {
        if e.Of(DeletePvc(idx)) != Failed {
          pvcs := pvcs - {idx};
        }
        if e.Of(DeletePvc(idx)) != Ok {
          return false;
        }
        idx := idx - 1;
      }
      ok := true;
    }

    method ClusterScaling(e: Env)
      modifies this, flow
      ensures View() == HandleClusterScaling(old(View()), e)
    {
      if status.replicas == spec.replicas || stateful.None? || stateful.value.replicas != spec.replicas {
        return;
      }
      var scalingUp := status.scalingUp && stateful.value.ready < spec.replicas;
      var scalingDown := status.scalingDown && stateful.value.ready > spec.replicas;
      if scalingUp || scalingDown {
        flow.RequeueAfter(WAIT_PODS_NOT_READY, false);
        return;
      }
      if status.replicas > spec.replicas {
        if !status.scalingDown {
          var err := UpdateInfinispan(e.Of(ScalingUpdate), status.(scalingDown := true));
          flow.Requeue(err);
          return;
        }
        if spec.replicas != 0 && status.replicas != stateful.value.current {
          var ok := RemoveVolumes(e, status.replicas, stateful.value.current);
          if !ok {
            flow.Requeue(true);
            return;
          }
        }
      } else if !status.scalingUp {
        var err := UpdateInfinispan(e.Of(ScalingUpdate), status.(scalingUp := true));
        flow.Requeue(err);
        return;
      }
      var err := UpdateInfinispan(e.Of(ScaledUpdate),
                                  status.(replicas := spec.replicas, scalingDown := false, scalingUp := false));
      if err {
        flow.Requeue(true);
      }
    }

    // ---- the other handlers ----

    method ClusterStatefulSet(e: Env)
      modifies this, flow
      ensures View() == HandleClusterStatefulSet(old(View()), e)
    {
      if stateful.Some? {
        return;
      }
      if e.Of(CreateSet) != Failed {
        stateful := Some(StatefulSet(spec.replicas, 0, 0));
      }
      if e.Of(CreateSet) != Ok {
        flow.Requeue(true);
        return;
      }
      var err := UpdateInfinispan(e.Of(CreatedUpdate), status.(replicas := spec.replicas));
      if err {
        flow.Requeue(true);
      }
    }

    method StatefulSetRollingUpgrade(e: Env)
      requires spec.version in known && !flow.stop
      modifies this, flow
      ensures View() == HandleStatefulSetRollingUpgrade(old(View()), e)
    {
      if stateful.None? {
        return;
      }
      if spec.image.None? && known[spec.version].cve && e.respin {
        var operand := StatusOf(None, Pending, known[spec.version]);
        var err := UpdateInfinispan(e.Of(RespinUpdate), status.(operand := operand));
        if err {
          flow.Requeue(true);
          return;
        }
      }
      if stateful.value.replicas != spec.replicas {
        if e.Of(SetUpdate) != Failed {
          stateful := Some(stateful.value.(replicas := spec.replicas));
        }
        if e.Of(SetUpdate) != Ok {
          flow.Requeue(true);
        }
      }
    }

    method AwaitPodIps(e: Env)
      modifies this, flow
      ensures View() == HandleAwaitPodIps(old(View()), e)
    {
      if servers == [] || !e.ipsReady {
        var err := UpdateInfinispan(e.Of(PodIpsUpdate), status.(wellFormed := W.Unknown));
        flow.RequeueAfter(WAIT_PODS_NOT_READY, err);
      }
    }

    method AwaitWellFormedCondition(e: Env)
      requires !flow.stop
      modifies this, flow
      ensures View() == HandleAwaitWellFormed(old(View()), e)
    {
      var wellFormed := W.WellFormedCondition(spec.replicas, e.ViewsOf(|servers|));
      var operand := if wellFormed == W.True then status.operand.(phase := Running) else status.operand;
      var err := UpdateInfinispan(e.Of(WellFormedUpdate), status.(wellFormed := wellFormed, operand := operand));
      if err {
        flow.Requeue(true);
        return;
      }
      if status.graceful || status.upgrade || status.stopping || status.wellFormed != W.True
        || |servers| < spec.replicas {
        flow.RequeueAfter(WAIT_NOT_WELL_FORMED, false);
      }
    }

    // ---- the pipeline ----

    method InvokeHandler(h: Handler, e: Env)
      requires !flow.stop
      modifies this, flow
      ensures View() == Handle(h, old(View()), e)
    {
      if h in e.halts {
        flow.Requeue(true);
        return;
      }
      match h {
        case InitialiseOperandVersion =>
          if spec.version !in known {
            flow.Stop(true);
          }
        case ScheduleGracefulShutdownUpgrade =>
          if spec.version in known {
            ScheduleGracefulShutdownUpgrade(e);
          } else {
            flow.Requeue(true);
          }
        case ClusterStatefulSet => ClusterStatefulSet(e);
        case PodStatus =>
          if stateful.None? {
            flow.Requeue(false);
          }
        case GracefulShutdownUpgrade => GracefulShutdownUpgrade(e);
        case GracefulShutdown => GracefulShutdown(e);
        case AwaitUpgrade =>
          if status.upgrade {
            flow.Requeue(false);
          }
        case ClusterScaling => ClusterScaling(e);
        case StatefulSetRollingUpgrade =>
          if spec.version in known {
            StatefulSetRollingUpgrade(e);
          } else {
            flow.Requeue(true);
          }
        case AwaitPodIps => AwaitPodIps(e);
        case EnableRebalanceAfterScaleUp => EnableRebalanceAfterScaleUp(e);
        case AwaitWellFormedCondition => AwaitWellFormedCondition(e);
        case _ =>
      }
    }

    // One reconciliation: the handlers run in order until one asks to stop.
    method Process(e: Env) returns (retry: bool, delay: nat, err: bool)
      requires flow.View() == START
      modifies this, flow
      ensures View() == ShutdownModel.Process(old(Stored()), e)
      ensures Stored() == Reconcile(old(Stored()), e)
      ensures retry == flow.retry && delay == flow.delay && err == flow.err
    {
      var handlers := Pipeline(status.upgrade);
      var k := 0;
      while k < |handlers|
        invariant 0 <= k <= |handlers|
        invariant k < |handlers| ==> !flow.stop
        invariant RunFrom(handlers, k, View(), e) == ShutdownModel.Process(old(Stored()), e)
      {
        InvokeHandler(handlers[k], e);
        k := k + 1;
        if flow.stop {
          break;
        }
      }
      retry, delay, err := flow.retry, flow.delay, flow.err;
    }
  }
}
