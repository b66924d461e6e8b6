/**
 A Backup or Restore: one job on a zero-capacity server, driven by the phase recorded in the custom resource.
 */
module ZeroCapacity {
  import opened ApiCalls
  import opened Operands

  // `New` is the empty phase of a resource nobody has looked at.
  datatype Phase = New | Initializing | Initialized | Running | Succeeded | Failed

  function Order(p: Phase): nat {
    match p
    case New => 0
    case Initializing => 1
    case Initialized => 2
    case Running => 3
    case Succeeded => 4
    case Failed => 4
  }

  predicate Terminal(p: Phase) {
    p.Succeeded? || p.Failed?
  }

  datatype PodState = NoPod | NotReady | Ready

  // The job as the server remembers it.
  datatype Job = Unfinished | Finished(success: bool)

  // What the server answers about a job; Unknown stands for any other answer.
  datatype Answer = NotFound | IsRunning | HasSucceeded | HasFailed | Unknown

  // `accepted` counts the Create calls the server has accepted, `early` tells whether it was ever told to stop before
  // the phase was terminal, `removed` whether somebody has deleted the pod.
  datatype Past = Past(accepted: nat, early: bool, removed: bool)

  datatype World = World(phase: Phase, cluster: bool, pod: PodState, job: Option<Job>, past: Past)

  datatype Call = WritePhase | ReadCluster | Init | CreatePod | NewClient | JobStatus | CreateJob | StopServer

  datatype Env = Env(
    faults: map<Call, Outcome>,
    paused: bool,
    stable: bool,         // the cluster is stable and its pods are listed
    undecided: bool       // the server answers something else than it knows
  ) {
    function Of(call: Call): Outcome {
      if call in faults then faults[call] else Ok
    }
  }

  // The answer to a status request: what the server knows about the job, or that it does not know.
  function AnswerOf(w: World, e: Env): Answer {
    match w.job
    case None => NotFound
    case Some(Unfinished) => if e.undecided then Unknown else IsRunning
    case Some(Finished(success)) => if e.undecided then Unknown else if success then HasSucceeded else HasFailed
  }

  function WriteTo(w: World, phase: Phase, e: Env): World {
    if e.Of(WritePhase) == Outcome.Failed then w else w.(phase := phase)
  }

  function InitializeResources(w: World, e: Env): World {
    if e.Of(ReadCluster) != Ok || !w.cluster || !e.stable || e.Of(Init) != Ok then w
    else if w.pod.NoPod? then
      var w1 := if e.Of(CreatePod) == Outcome.Failed then w else w.(pod := NotReady);
      if e.Of(CreatePod) != Ok then w1 else WriteTo(w1, Initialized, e)
    else WriteTo(w, Initialized, e)
  }

  // The job is created unless the server knows it.
  function Exec(w: World, e: Env): (World, bool) {
    if e.Of(JobStatus) != Ok then (w, false)
    else if AnswerOf(w, e) != NotFound then (w, true)
    else (if e.Of(CreateJob) == Outcome.Failed then w
          else w.(job := Some(Unfinished), past := w.past.(accepted := w.past.accepted + 1)),
          e.Of(CreateJob) == Ok)
  }

  function Execute(w: World, e: Env): World {
    if !w.pod.Ready? then w
    else var (w1, ok) := Exec(w, e); WriteTo(w1, if ok then Phase.Running else Phase.Failed, e)
  }

  function WaitForExecution(w: World, e: Env): World {
    if e.Of(JobStatus) != Ok || AnswerOf(w, e) == HasFailed then WriteTo(w, Phase.Failed, e)
    else if AnswerOf(w, e) == HasSucceeded then WriteTo(w, Succeeded, e)
    else w
  }

  // A stopped server does not come back: the pod is never restarted.
  function CleanupResources(w: World, e: Env): World {
    if !w.pod.Ready? || e.Of(StopServer) == Outcome.Failed then w
    else w.(pod := NotReady, past := w.past.(early := w.past.early || !Terminal(w.phase)))
  }

  function Reconcile(w: World, e: Env): World {
    if e.paused then w
    else match w.phase
      case New => WriteTo(w, Initializing, e)
      case Initializing => InitializeResources(w, e)
      case _ =>
        if e.Of(ReadCluster) != Ok || !w.cluster || e.Of(NewClient) != Ok then w
        else match w.phase
          case Initialized => Execute(w, e)
          case Running => WaitForExecution(w, e)
          case _ => CleanupResources(w, e)
  }

  // ---- everything that can happen ----

  // The server keeps what it knows about the job: a job may finish, but it is never forgotten.
  datatype Event = Reconciled(e: Env) | PodBecomes(pod: PodState) | JobFinishes(success: bool) | ClusterIs(there: bool)

  function Step(w: World, ev: Event): World {
    match ev
    case Reconciled(e) => Reconcile(w, e)
    case PodBecomes(pod) =>
      if w.pod.NoPod? then w else w.(pod := pod, past := w.past.(removed := w.past.removed || pod.NoPod?))
    case JobFinishes(success) => if w.job == Some(Unfinished) then w.(job := Some(Finished(success))) else w
    case ClusterIs(there) => w.(cluster := there)
  }

  function Steps(w: World, evs: seq<Event>): World
    decreases |evs|
  {
    if evs == [] then w else Steps(Step(w, evs[0]), evs[1..])
  }

  predicate Initial(w: World) {
    w.phase == New && w.pod == NoPod && w.job == None && w.past == Past(0, false, false)
  }

  // ---- what every run keeps ----

  predicate Inv(w: World) {
    && w.past.accepted == (if w.job.None? then 0 else 1)
    && (w.job.Some? ==> Order(w.phase) >= Order(Initialized))
    && (w.phase == Phase.Running ==> w.job.Some?)
    && (w.phase == Succeeded ==> w.job == Some(Finished(true)))
    && (Order(w.phase) >= Order(Initialized) && w.pod.NoPod? ==> w.past.removed)
    && !w.past.early
  }

  // From one state to a later one: the phase only moves forward, a terminal phase is final, and the server never
  // forgets the job nor changes its mind about one that has finished.
  predicate Later(w: World, w': World) {
    && Order(w.phase) <= Order(w'.phase) && (Terminal(w.phase) ==> w'.phase == w.phase)
    && (w.job.Some? ==> w'.job.Some?) && (w.job.Some? && w.job.value.Finished? ==> w'.job == w.job)
  }

  lemma StepKeeps(w: World, ev: Event)
    requires Inv(w)
    ensures Inv(Step(w, ev)) && Later(w, Step(w, ev))
  {
  }

  lemma {:induction false} RunKeeps(w: World, evs: seq<Event>)
    requires Inv(w)
    ensures Inv(Steps(w, evs)) && Later(w, Steps(w, evs))
    decreases |evs|
  {
    if evs != [] {
      StepKeeps(w, evs[0]);
      RunKeeps(Step(w, evs[0]), evs[1..]);
    }
  }

  lemma {:induction false} StepsSplit(w: World, a: seq<Event>, b: seq<Event>)
    ensures Steps(w, a + b) == Steps(Steps(w, a), b)
    decreases |a|
  {
    if a == [] {
      assert a + b == b;
    } else {
      assert (a + b)[1..] == a[1..] + b;
      StepsSplit(Step(w, a[0]), a[1..], b);
    }
  }

  // Over every run, with any phase write failing or being lost: the phase only moves forward and never leaves Succeeded
  // or Failed, the pod is there from Initialized on unless somebody has deleted it, the server accepts at most one
  // Create, Succeeded stands only for a job that has succeeded, and Stop is never sent before the phase is terminal.
  lemma JobsRunOnce(w: World, past: seq<Event>, future: seq<Event>)
    requires Initial(w)
    ensures var now, later := Steps(w, past), Steps(w, past + future);
            && Order(now.phase) <= Order(later.phase) && (Terminal(now.phase) ==> later.phase == now.phase)
            && later.past.accepted <= 1 && !later.past.early
            && (Order(later.phase) >= Order(Initialized) && !later.past.removed ==> !later.pod.NoPod?)
            && (later.phase == Phase.Running ==> later.job.Some?)
            && (later.phase == Succeeded ==> later.job == Some(Finished(true)))
  {
    RunKeeps(w, past);
    StepsSplit(w, past, future);
    RunKeeps(Steps(w, past), future);
  }

  // Nothing fails, and the platform is ready for the job.
  predicate Undisturbed(w: World, e: Env) {
    e.faults == map[] && !e.paused && e.stable && !e.undecided && w.cluster && !w.pod.NotReady?
  }

  // An undisturbed reconciliation of a job that is not terminal moves it on, unless it waits for the server to finish
  // it; a finished job is recorded as what it is.
  lemma UndisturbedAdvances(w: World, e: Env)
    requires Inv(w) && Undisturbed(w, e) && !Terminal(w.phase) && (w.phase == Initialized ==> w.pod.Ready?)
    ensures var w' := Reconcile(w, e);
            && (w.job != Some(Unfinished) || w.phase != Phase.Running ==> Order(w'.phase) == Order(w.phase) + 1)
            && (w.phase == Phase.Running && w.job.value.Finished?
                ==> w'.phase == if w.job.value.success then Succeeded else Phase.Failed)
  {
  }

  // What the platform does before a reconciliation that nothing disturbs: the pod, once created, becomes ready, and the
  // job, once created, finishes.
  function Helped(w: World, success: bool): World {
    Step(if w.pod.NoPod? then w else Step(w, PodBecomes(Ready)), JobFinishes(success))
  }

  function Round(w: World, success: bool, e: Env): World {
    Reconcile(Helped(w, success), e)
  }

  function Rounds(w: World, success: bool, es: seq<Env>): World
    decreases |es|
  {
    if es == [] then w else Rounds(Round(w, success, es[0]), success, es[1..])
  }

  predicate Quiet(es: seq<Env>) {
    forall k :: 0 <= k < |es| ==> es[k].faults == map[] && !es[k].paused && es[k].stable && !es[k].undecided
  }

  // The pod of a job that has not been started is gone.
  predicate Orphaned(w: World) {
    w.phase == Initialized && w.pod.NoPod?
  }

  // The job has finished, the phase says how, and the server does not run any more.
  predicate Completed(w: World) {
    && w.job.Some? && w.job.value.Finished? && !w.pod.Ready?
    && w.phase == if w.job.value.success then Succeeded else Phase.Failed
  }

  // Every round brings the phase one step on, and a terminal phase tells how the job ended.
  lemma RoundAdvances(w: World, success: bool, e: Env)
    requires Inv(w) && w.cluster && Quiet([e]) && !Orphaned(w)
    ensures var w' := Round(w, success, e);
            && Inv(w') && w'.cluster && !Orphaned(w')
            && (!Terminal(w.phase) ==> Order(w'.phase) == Order(w.phase) + 1)
            && (w.phase == Phase.Running ==>
                  w'.job.value.Finished? && w'.phase == if w'.job.value.success then Succeeded else Phase.Failed)
            && (Terminal(w.phase) ==> w'.phase == w.phase && !w'.pod.Ready?)
            && (w.job.None? && w'.job.Some? ==> w'.job == Some(Unfinished))
            && (w.job == Some(Unfinished) ==> w'.job == Some(Finished(success)))
            && (w.job.Some? && w.job.value.Finished? ==> w'.job == w.job)
  {
    assert [e][0] == e;
    var ready := if w.pod.NoPod? then w else Step(w, PodBecomes(Ready));
    StepKeeps(w, PodBecomes(Ready));
    StepKeeps(ready, JobFinishes(success));
    StepKeeps(Helped(w, success), Reconciled(e));
  }

  // From there on the phase stays, and the server is stopped.
  lemma {:induction false} TerminalRounds(w: World, success: bool, es: seq<Env>)
    requires Inv(w) && w.cluster && Terminal(w.phase) && w.job.Some? && w.job.value.Finished? && Quiet(es)
    ensures var w' := Rounds(w, success, es);
            w'.phase == w.phase && w'.job == w.job && (es != [] ==> !w'.pod.Ready?)
    decreases |es|
  {
    if es != [] {
      RoundAdvances(w, success, es[0]);
      TerminalRounds(Round(w, success, es[0]), success, es[1..]);
    }
  }

  lemma {:induction false} RoundsComplete(w: World, success: bool, es: seq<Env>)
    requires Inv(w) && w.cluster && !Terminal(w.phase) && !Orphaned(w) && |es| > 4 - Order(w.phase) && Quiet(es)
    ensures var done := Rounds(w, success, es);
            Completed(done) && (w.job != Some(Finished(!success)) ==> done.job == Some(Finished(success)))
    decreases |es|
  {
    var next := Round(w, success, es[0]);
    RoundAdvances(w, success, es[0]);
    if Terminal(next.phase) {
      TerminalRounds(next, success, es[1..]);
    } else {
      RoundsComplete(next, success, es[1..]);
    }
  }

  // The pod is created only in phase Initializing: once it is deleted before the phase says Running, the phase stays
  // and no job is created any more, whatever happens.
  lemma {:induction false} OrphanedForGood(w: World, evs: seq<Event>)
    requires Orphaned(w)
    ensures Orphaned(Steps(w, evs)) && Steps(w, evs).past.accepted == w.past.accepted
    decreases |evs|
  {
    if evs != [] {
      OrphanedForGood(Step(w, evs[0]), evs[1..]);
    }
  }

  lemma {:induction false} OrphanedRounds(w: World, success: bool, es: seq<Env>)
    requires Orphaned(w)
    ensures Orphaned(Rounds(w, success, es))
    decreases |es|
  {
    if es != [] {
      OrphanedRounds(Round(w, success, es[0]), success, es[1..]);
    }
  }

  // Progress: whatever has happened to a Backup or Restore that is not terminal yet, five undisturbed rounds end it as
  // its job ended, with the server stopped, exactly when its pod has not been deleted before the job was started. A job
  // that finishes in these rounds ends as `success` says.
  lemma JobsComplete(w: World, evs: seq<Event>, success: bool, es: seq<Env>)
    requires Initial(w) && Steps(w, evs).cluster && !Terminal(Steps(w, evs).phase) && |es| >= 5 && Quiet(es)
    ensures var now, done := Steps(w, evs), Rounds(Steps(w, evs), success, es);
            && (Completed(done) <==> !Orphaned(now))
            && (!Orphaned(now) && now.job != Some(Finished(!success)) ==> done.job == Some(Finished(success)))
  {
    RunKeeps(w, evs);
    var now := Steps(w, evs);
    if Orphaned(now) {
      OrphanedRounds(now, success, es);
    } else {
      RoundsComplete(now, success, es);
    }
  }

  // Nothing is created for a cluster that cannot be read, is not stable, or has not told the resource how to start: the
  // pod comes into being exactly then, and the phase says so only once its creation was confirmed.
  lemma PodIsCreatedWhen(w: World, e: Env)
    requires w.phase == Initializing
    ensures var w' := Reconcile(w, e);
            var prepared := !e.paused && e.Of(ReadCluster) == Ok && w.cluster && e.stable && e.Of(Init) == Ok;
            && (w.pod.NoPod? ==> (w'.pod.NotReady? <==> prepared && e.Of(CreatePod) != Outcome.Failed))
            && (!w.pod.NoPod? ==> w'.pod == w.pod)
            && (w'.phase == Initialized <==>
                  && prepared && (w.pod.NoPod? ==> e.Of(CreatePod) == Ok) && e.Of(WritePhase) != Outcome.Failed)
            && w' == w.(pod := w'.pod, phase := if w'.phase == Initialized then Initialized else Initializing)
  {
  }

  // An answer that settles nothing changes nothing.
  lemma UndecidedJobWaits(w: World, e: Env)
    requires w.phase == Phase.Running && e.Of(JobStatus) == Ok && (e.undecided || w.job == Some(Unfinished))
    requires w.job.Some?
    ensures Reconcile(w, e) == w
  {
  }

  // A reconciliation stops the server exactly when the phase is terminal, the pod is ready, it gets through and the
  // request takes effect.
  lemma ServerIsStoppedWhen(w: World, e: Env)
    requires Inv(w) && w.pod.Ready?
    ensures Reconcile(w, e).pod.NotReady?
            <==> Terminal(w.phase) && GetsThrough(w, e) && e.Of(StopServer) != Outcome.Failed
  {
  }

  // ---- failures recorded over jobs that have not failed ----

  // The reconciliation gets to the action of its phase.
  predicate GetsThrough(w: World, e: Env) {
    !e.paused && e.Of(ReadCluster) == Ok && w.cluster && e.Of(NewClient) == Ok
  }

  // Failed is recorded over a job that has not failed: the phase write takes effect, and the status request fails, or
  // no job is known and the Create is not confirmed.
  predicate Misrecords(w: World, e: Env) {
    && GetsThrough(w, e) && e.Of(WritePhase) != Outcome.Failed && w.job != Some(Finished(false))
    && (|| (w.phase == Phase.Running && e.Of(JobStatus) != Ok)
        || (w.phase == Initialized && w.pod.Ready?
            && (e.Of(JobStatus) != Ok || (w.job.None? && e.Of(CreateJob) != Ok))))
  }

  // Exactly then.
  lemma MisrecordedWhen(w: World, e: Env)
    requires Inv(w) && !Terminal(w.phase)
    ensures var w' := Reconcile(w, e);
            w'.phase == Phase.Failed && w'.job != Some(Finished(false)) <==> Misrecords(w, e)
  {
  }

  // Some reconciliation of the run does so.
  predicate MisrecordedIn(w: World, evs: seq<Event>)
    decreases |evs|
  {
    evs != []
    && ((evs[0].Reconciled? && !Terminal(w.phase) && Misrecords(w, evs[0].e))
        || MisrecordedIn(Step(w, evs[0]), evs[1..]))
  }

  // A job once seen unfinished, or succeeded, at a given time has not failed before.
  lemma {:induction false} NotFailedBefore(w: World, evs: seq<Event>)
    requires Inv(w) && Steps(w, evs).job != Some(Finished(false))
    ensures w.job != Some(Finished(false))
    decreases |evs|
  {
    RunKeeps(w, evs);
  }

  // Over every run that ends with a job that has not failed: the resource says Failed exactly when some reconciliation
  // of the run misrecorded it.
  lemma {:induction false} FailedIsWrongWhen(w: World, evs: seq<Event>)
    requires Inv(w) && !Terminal(w.phase) && Steps(w, evs).job != Some(Finished(false))
    ensures Steps(w, evs).phase == Phase.Failed <==> MisrecordedIn(w, evs)
    decreases |evs|
  {
    if evs != [] {
      var next := Step(w, evs[0]);
      StepKeeps(w, evs[0]);
      NotFailedBefore(next, evs[1..]);
      if evs[0].Reconciled? {
        MisrecordedWhen(w, evs[0].e);
      }
      if Terminal(next.phase) {
        RunKeeps(next, evs[1..]);
        NoneWhenTerminal(next, evs[1..]);
      } else {
        FailedIsWrongWhen(next, evs[1..]);
      }
    }
  }

  lemma {:induction false} NoneWhenTerminal(w: World, evs: seq<Event>)
    requires Inv(w) && Terminal(w.phase)
    ensures !MisrecordedIn(w, evs)
    decreases |evs|
  {
    if evs != [] {
      StepKeeps(w, evs[0]);
      NoneWhenTerminal(Step(w, evs[0]), evs[1..]);
    }
  }

  // Whatever becomes of the job, a misrecorded Failed is final.
  lemma FailedRequestIsFinal(w: World, e: Env, evs: seq<Event>)
    requires Inv(w) && !Terminal(w.phase) && Misrecords(w, e)
    ensures Steps(Reconcile(w, e), evs).phase == Phase.Failed
    ensures e.Of(JobStatus) != Ok ==> Reconcile(w, e).job == w.job
  {
    MisrecordedWhen(w, e);
    StepKeeps(w, Reconciled(e));
    RunKeeps(Reconcile(w, e), evs);
  }

  // A Create whose answer is lost is misrecorded while its job runs: the resource then says Failed over a job that may
  // still succeed, exactly when the answer is lost, since a Create that is turned down leaves no job.
  lemma LostCreateIsRecordedAsFailure(w: World, e: Env)
    requires Inv(w) && w.phase == Initialized && w.pod.Ready? && w.job.None? && GetsThrough(w, e)
    requires e.Of(JobStatus) == Ok && e.Of(WritePhase) != Outcome.Failed
    ensures var w' := Reconcile(w, e);
            && (w'.phase == Phase.Failed && w'.job == Some(Unfinished) <==> e.Of(CreateJob) == Lost)
            && (e.Of(CreateJob) == Lost ==>
                  Step(w', JobFinishes(true)).job == Some(Finished(true))
                    && Step(w', JobFinishes(true)).phase == Phase.Failed)
  {
  }
}
