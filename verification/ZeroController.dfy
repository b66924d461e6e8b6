/**
 The zero-capacity controller as the operator executes it: the phase switch, and the action of a Backup or Restore.
 Proved to do exactly what ZeroCapacity says.
 */
module ZeroController {
  import opened ApiCalls
  import opened Operands
  import opened ZeroCapacity

  class Controller {
    var phase: ZeroCapacity.Phase
    var cluster: bool
    var pod: PodState
    var job: Option<Job>
    ghost var past: Past

    ghost function View(): World
      reads this
    {
      World(phase, cluster, pod, job, past)
    }

    constructor (w: World)
      ensures View() == w
    {
      phase, cluster, pod, job, past := w.phase, w.cluster, w.pod, w.job, w.past;
    }

    method UpdatePhase(next: ZeroCapacity.Phase, e: Env)
      modifies this`phase
      ensures View() == WriteTo(old(View()), next, e)
    {
      if e.Of(WritePhase) != Outcome.Failed {
        phase := next;
      }
    }

    method Status(e: Env) returns (answer: Answer)
      ensures answer == AnswerOf(View(), e)
    {
      if job.None? {
        return NotFound;
      }
      if e.undecided {
        return Unknown;
      }
      match job.value {
        case Unfinished => answer := IsRunning;
        case Finished(success) => answer := if success then HasSucceeded else HasFailed;
      }
    }

    // The action of a Backup or Restore: the status is asked for first, so a second attempt creates nothing.
    method Exec(e: Env) returns (ok: bool)
      modifies this`job, this`past
      ensures (View(), ok) == ZeroCapacity.Exec(old(View()), e)
    {
      if e.Of(JobStatus) != Ok {
        return false;
      }
      var status := Status(e);
      if status == NotFound {
        if e.Of(CreateJob) != Outcome.Failed {
          job := Some(Unfinished);
          past := past.(accepted := past.accepted + 1);
        }
        return e.Of(CreateJob) == Ok;
      }
      ok := true;
    }

    method InitializeResources(e: Env)
      modifies this
      ensures View() == ZeroCapacity.InitializeResources(old(View()), e)
    {
      if e.Of(ReadCluster) != Ok || !cluster || !e.stable || e.Of(Init) != Ok {
        return;
      }
      if pod.NoPod? {
        if e.Of(CreatePod) != Outcome.Failed {
          pod := NotReady;
        }
        if e.Of(CreatePod) != Ok {
          return;
        }
      }
      UpdatePhase(Initialized, e);
    }

    method Execute(e: Env)
      modifies this
      ensures View() == ZeroCapacity.Execute(old(View()), e)
    {
      if !pod.Ready? {
        return;
      }
      var ok := Exec(e);
      if !ok {
        UpdatePhase(ZeroCapacity.Phase.Failed, e);
        return;
      }
      UpdatePhase(ZeroCapacity.Phase.Running, e);
    }

    method WaitForExecutionToComplete(e: Env)
      modifies this
      ensures View() == WaitForExecution(old(View()), e)
    {
      if e.Of(JobStatus) != Ok {
        UpdatePhase(ZeroCapacity.Phase.Failed, e);
        return;
      }
      var status := Status(e);
      if status == HasFailed {
        UpdatePhase(ZeroCapacity.Phase.Failed, e);
        return;
      }
      if status == HasSucceeded {
        UpdatePhase(Succeeded, e);
      }
    }

    method CleanupResources(e: Env)
      modifies this
      ensures View() == ZeroCapacity.CleanupResources(old(View()), e)
    {
      if pod.Ready? {
        if e.Of(StopServer) != Outcome.Failed {
          pod := NotReady;
          past := past.(early := past.early || !Terminal(phase));
        }
      }
    }

    method Reconcile(e: Env)
      modifies this
      ensures View() == ZeroCapacity.Reconcile(old(View()), e)
    {
      if e.paused {
        return;
      }
      if phase == New {
        UpdatePhase(Initializing, e);
        return;
      }
      if phase == Initializing {
        InitializeResources(e);
        return;
      }
      if e.Of(ReadCluster) != Ok || !cluster || e.Of(NewClient) != Ok {
        return;
      }
      if phase == Initialized {
        Execute(e);
      } else if Terminal(phase) {
        CleanupResources(e);
      } else {
        WaitForExecutionToComplete(e);
      }
    }
  }
}
