/**
 The two loops of GracefulShutdown over the pods: which servers they stop, and when they may start stopping any.
 */
module ShutdownPodsProofs {
  import opened ApiCalls
  import opened Operands
  import opened ShutdownModel
  import W = WellFormed

  // The stopped servers are the first ones of the list.
  ghost predicate StoppedPrefix(servers: seq<Server>) {
    forall j, k :: 0 <= j < k < |servers| && servers[k].Down? ==> servers[j].Down?
  }

  // The server has answered that it sees the whole cluster and that it is healthy.
  predicate ReportsWhole(w: World, e: Env, pod: nat) {
    var r := e.ReplyOf(pod);
    r.reached && r.size == Some(w.Size()) && r.healthy == Some(true)
  }

  // No server from `k` to `j` has been stopped.
  ghost predicate UpThrough(servers: seq<Server>, k: nat, j: nat)
    requires j < |servers|
  {
    forall i :: k <= i <= j ==> servers[i].Up?
  }

  // The first loop lets the shutdown go ahead exactly when every pod can be reached and every pod listed before the
  // first stopped one reports the full cluster and good health.
  lemma {:induction false} GoMeansWhole(w: World, e: Env, k: nat, initiated: bool)
    requires k <= |w.cluster.servers|
    ensures CheckPods(w, e, k, initiated) == Go <==>
            forall j :: k <= j < |w.cluster.servers| ==>
              && e.ReplyOf(j).reached
              && (!initiated && UpThrough(w.cluster.servers, k, j) ==> ReportsWhole(w, e, j))
    decreases |w.cluster.servers| - k
  {
    if k < |w.cluster.servers| {
      GoMeansWhole(w, e, k + 1, initiated || w.cluster.servers[k].Down?);
      assert UpThrough(w.cluster.servers, k, k) <==> w.cluster.servers[k].Up?;
      assert forall j :: k < j < |w.cluster.servers| ==>
               (UpThrough(w.cluster.servers, k, j)
                <==> w.cluster.servers[k].Up? && UpThrough(w.cluster.servers, k + 1, j));
    }
  }

  // The first Shutdown request of a cluster is sent only if every pod reports the full size and good health.
  lemma FirstShutdownNeedsWholeCluster(w: World, e: Env)
    requires AllUp(w.cluster.servers)
    ensures CheckPods(w, e, 0, false) == Go <==> forall j :: 0 <= j < |w.cluster.servers| ==> ReportsWhole(w, e, j)
  {
    GoMeansWhole(w, e, 0, false);
    forall j | 0 <= j < |w.cluster.servers|
      ensures e.ReplyOf(j).reached && (UpThrough(w.cluster.servers, 0, j) ==> ReportsWhole(w, e, j))
              <==> ReportsWhole(w, e, j)
    {
      assert UpThrough(w.cluster.servers, 0, j);
    }
  }

  // A resumed shutdown is never held up by the size and health checks: with the first pod already stopped the verdict
  // depends on the pods being reachable, and on nothing else.
  lemma {:induction false} ResumedShutdownIsNotBlocked(w: World, e: Env, k: nat)
    requires k <= |w.cluster.servers|
    ensures CheckPods(w, e, k, true) ==
            if forall j :: k <= j < |w.cluster.servers| ==> e.ReplyOf(j).reached then Go else Unreachable
    decreases |w.cluster.servers| - k
  {
    if k < |w.cluster.servers| {
      ResumedShutdownIsNotBlocked(w, e, k + 1);
    }
  }

  // Every pod can be reached, but no running server sees the full cluster any more.
  predicate HalfStopped(w: World, e: Env) {
    forall k :: 0 <= k < |w.cluster.servers| ==>
      e.ReplyOf(k).reached && (w.cluster.servers[k].Up? ==> e.ReplyOf(k).size != Some(w.Size()))
  }

  // Once a shutdown has begun, it is resumed exactly when the first server of the list is among the stopped ones: the
  // order of the list is what keeps it from being held up.
  lemma OutOfOrderShutdownIsBlocked(w: World, e: Env)
    requires HalfStopped(w, e)
    ensures CheckPods(w, e, 0, false) == Go <==> w.cluster.servers == [] || w.cluster.servers[0].Down?
  {
    var servers := w.cluster.servers;
    GoMeansWhole(w, e, 0, false);
    if servers != [] {
      if servers[0].Up? {
        assert UpThrough(servers, 0, 0) && !ReportsWhole(w, e, 0);
      } else {
        forall j | 0 <= j < |servers| ensures !UpThrough(servers, 0, j) {
          assert !servers[0].Up?;
        }
      }
    }
  }

  // The second loop, whatever fails in it: servers are only ever stopped, in list order; when it completes all of them
  // are; and whenever it has stopped one, rebalancing is off.
  lemma {:induction false} SweepStopsInOrder(servers: seq<Server>, rebalance: bool, e: Env, k: nat, disabled: bool)
    requires k <= |servers|
    requires forall j :: 0 <= j < k ==> servers[j].Down?
    requires StoppedPrefix(servers)
    requires disabled ==> !rebalance
    ensures var s := ShutdownPods(servers, rebalance, e, k, disabled);
            && |s.servers| == |servers|
            && StoppedPrefix(s.servers)
            && (forall j :: 0 <= j < |servers| && servers[j].Down? ==> s.servers[j].Down?)
            && (s.done ==> AllDown(s.servers))
            && (s.servers != servers || !rebalance ==> !s.rebalance)
    decreases |servers| - k
  {
    if k == |servers| {
    } else if servers[k].Down? {
      SweepStopsInOrder(servers, rebalance, e, k + 1, disabled);
    } else {
      assert forall j :: k < j < |servers| ==> servers[j].Up?;
      var off := if disabled then rebalance else false;
      if !disabled && e.Of(RebalanceOff) != Ok {
      } else if e.Of(ShutdownPod(k)) == Ok {
        assert StoppedPrefix(servers[k := Down]);
        SweepStopsInOrder(servers[k := Down], off, e, k + 1, true);
      } else {
        assert StoppedPrefix(servers[k := Down]);
      }
    }
  }

  // With no call failing the sweep completes.
  lemma {:induction false} SweepCompletes(servers: seq<Server>, rebalance: bool, e: Env, k: nat, disabled: bool)
    requires k <= |servers| && e.faults == map[]
    ensures ShutdownPods(servers, rebalance, e, k, disabled).done
    decreases |servers| - k
  {
    if k < |servers| {
      if servers[k].Down? {
        SweepCompletes(servers, rebalance, e, k + 1, disabled);
      } else {
        SweepCompletes(servers[k := Down], if disabled then rebalance else false, e, k + 1, true);
      }
    }
  }
}
