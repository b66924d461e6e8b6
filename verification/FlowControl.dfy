/**
 The flow control shared by every handler of a pipeline run: a handler asks for a retry, for an immediate stop, or for
 both, and the last request decides which error and which delay are reported.
 */
module FlowControl {

  // `delay` is in seconds; `err` tells whether the run ends with an error.
  datatype Flow = Flow(retry: bool, stop: bool, err: bool, delay: nat)

  const START := Flow(false, false, false, 0)

  // Waits used by the handlers, in seconds.
  const WAIT_PODS_NOT_READY: nat := 2
  const WAIT_NOT_WELL_FORMED: nat := 15

  function Stopped(f: Flow, err: bool): Flow {
    f.(stop := true, err := err)
  }

  function RequeuedAfter(f: Flow, delay: nat, err: bool): Flow {
    Stopped(f.(retry := true, delay := delay), err)
  }

  function Requeued(f: Flow, err: bool): Flow {
    RequeuedAfter(f, 0, err)
  }

  function RequeuedEventually(f: Flow, delay: nat): Flow {
    f.(retry := true, delay := delay)
  }

  // What a whole run reports after a sequence of requests.
  datatype Request = Stop(err: bool) | Requeue(delay: nat, err: bool) | Eventually(delay: nat)

  function Apply(f: Flow, r: Request): Flow {
    match r
    case Stop(err) => Stopped(f, err)
    case Requeue(delay, err) => RequeuedAfter(f, delay, err)
    case Eventually(delay) => RequeuedEventually(f, delay)
  }

  function ApplyAll(f: Flow, rs: seq<Request>): Flow {
    if rs == [] then f else Apply(ApplyAll(f, rs[..|rs| - 1]), rs[|rs| - 1])
  }

  // Requests only accumulate: a retry or a stop, once asked for, is never withdrawn, a run stops exactly when one
  // request was not "eventually", and it retries exactly when one request was not a bare stop. An error is reported
  // only if the last stopping request carried one, so a later request erases the error of an earlier one.
  lemma {:induction false} FlowAccumulates(rs: seq<Request>)
    ensures var f := ApplyAll(START, rs);
            && (f.stop <==> exists k :: 0 <= k < |rs| && !rs[k].Eventually?)
            && (f.retry <==> exists k :: 0 <= k < |rs| && !rs[k].Stop?)
            && (f.err <==> exists k :: 0 <= k < |rs| && !rs[k].Eventually? && rs[k].err
                                       && forall j :: k < j < |rs| ==> rs[j].Eventually?)
  {
    if rs != [] {
      var n := |rs| - 1;
      var front := rs[..n];
      FlowAccumulates(front);
      var g := ApplyAll(START, front);
      if g.stop { var k :| 0 <= k < |front| && !front[k].Eventually?; assert !rs[k].Eventually?; }
      if g.retry { var k :| 0 <= k < |front| && !front[k].Stop?; assert !rs[k].Stop?; }
      if rs[n].Eventually? {
        if g.err {
          var k :| 0 <= k < |front| && !front[k].Eventually? && front[k].err
                   && forall j :: k < j < |front| ==> front[j].Eventually?;
          assert !rs[k].Eventually? && rs[k].err && forall j :: k < j < |rs| ==> rs[j].Eventually?;
        }
        if k :| 0 <= k < |rs| && !rs[k].Eventually? && rs[k].err && forall j :: k < j < |rs| ==> rs[j].Eventually? {
          assert k < n && !front[k].Eventually? && front[k].err;
          assert forall j :: k < j < |front| ==> front[j] == rs[j];
        }
        if k :| 0 <= k < |rs| && !rs[k].Eventually? { assert k < n && !front[k].Eventually?; }
      } else {
        assert !rs[n].Eventually?;
      }
      if rs[n].Stop? {
        if k :| 0 <= k < |rs| && !rs[k].Stop? { assert k < n && !front[k].Stop?; }
      } else {
        assert !rs[n].Stop?;
      }
    }
  }

  // The delay reported is that of the last request that carries one.
  lemma {:induction false} LastDelayCounts(rs: seq<Request>)
    ensures var f := ApplyAll(START, rs);
            if f.retry
            then exists k :: 0 <= k < |rs| && !rs[k].Stop? && rs[k].delay == f.delay
                             && forall j :: k < j < |rs| ==> rs[j].Stop?
            else f.delay == 0
  {
    if rs != [] {
      var n := |rs| - 1;
      LastDelayCounts(rs[..n]);
      if rs[n].Stop? && ApplyAll(START, rs[..n]).retry {
        var k :| 0 <= k < n && !rs[..n][k].Stop? && rs[..n][k].delay == ApplyAll(START, rs[..n]).delay
                 && forall j :: k < j < n ==> rs[..n][j].Stop?;
        assert rs[k] == rs[..n][k] && forall j :: k < j < n ==> rs[j] == rs[..n][j];
      }
    }
  }

  // The object the handlers call.
  class FlowCtrl {
    var retry: bool
    var stop: bool
    var err: bool
    var delay: nat

    function View(): Flow
      reads this
    {
      Flow(retry, stop, err, delay)
    }

    constructor ()
      ensures View() == START
    {
      retry, stop, err, delay := false, false, false, 0;
    }

    method Requeue(err: bool)
      modifies this
      ensures View() == Requeued(old(View()), err)
    {
      RequeueAfter(0, err);
    }

    method RequeueAfter(delay: nat, err: bool)
      modifies this
      ensures View() == RequeuedAfter(old(View()), delay, err)
    {
      retry := true;
      this.delay := delay;
      Stop(err);
    }

    method RequeueEventually(delay: nat)
      modifies this
      ensures View() == RequeuedEventually(old(View()), delay)
    {
      retry := true;
      this.delay := delay;
    }

    method Stop(err: bool)
      modifies this
      ensures View() == Stopped(old(View()), err)
    {
      stop := true;
      this.err := err;
    }
  }
}
