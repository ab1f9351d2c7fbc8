/** One-shot jobs: creating them, waiting for them across cycles, deleting them with their pods. */
module Jobs {
  import opened Basics
  import opened Kube
  import opened OperatorState

  datatype JobState = Busy | Succeeded | Failing

  /** The order of the tests matters: a failed pod outweighs a success, a success outweighs an active pod. */
  function StateOf(job: Job): JobState
  {
    if job.failed > 0 then Failing
    else if job.succeeded == job.completions then Succeeded
    else if job.active > 0 then Busy
    else if job.failedCondition then Failing
    else Busy
  }

  /** The verdict, from the counts: done when all asked for succeeded and none failed; failed when a pod failed, or nothing
      is active and the job says it failed; running otherwise. */
  lemma VerdictExactly(job: Job)
    ensures StateOf(job) == Succeeded <==> job.failed == 0 && job.succeeded == job.completions
    ensures StateOf(job) == Failing <==>
      job.failed > 0 || (job.succeeded != job.completions && job.active == 0 && job.failedCondition)
    ensures StateOf(job) == Busy <==>
      job.failed == 0 && job.succeeded != job.completions && (job.active > 0 || !job.failedCondition)
  {
  }

  /** Waiting looks at the job once and reports that verdict: success, an error, or a wait of a second. */
  lemma WaitExactly(s: Sys, job: string)
    ensures var r := WaitForJob(s, job); var reply := Call(s, GetJob(job)).reply;
      && (reply.JobIs? ==>
           var j := reply.job;
           && (r.flow == OK <==> j.failed == 0 && j.succeeded == j.completions)
           && (r.flow == Return(Result(true, 1), None) <==>
                 j.failed == 0 && j.succeeded != j.completions && (j.active > 0 || !j.failedCondition))
           && (r.flow == Fail(JobFailed) <==>
                 j.failed > 0 || (j.succeeded != j.completions && j.active == 0 && j.failedCondition)))
      && (reply.Fails? ==> r.flow == Fail(reply.error)) && (reply.Silence? ==> r.flow.Killed?)
  {
    hide Call;
  }

  function Waited(a: Ans): Ran
  {
    match a.reply
    case Silence => Ran(a.s, Killed)
    case Fails(e) => Ran(a.s, Fail(e))
    case JobIs(job) =>
      Ran(a.s, match StateOf(job)
               case Busy => Return(Requeue(1), None)
               case Succeeded => OK
               case Failing => Fail(JobFailed))
    case _ => Ran(a.s, OK)
  }

  function WaitForJob(s: Sys, job: string): Ran
  {
    Waited(Call(s, GetJob(job)))
  }

  method WaitForJobToFinish(op: Operator, job: string) returns (flow: Flow)
    modifies op
    ensures Ran(op.Now(), flow) == WaitForJob(old(op.Now()), job)
  {
    var reply := op.Call(GetJob(job));
    if reply.Silence? { return Killed; }
    if reply.Fails? { return Fail(reply.error); }
    if !reply.JobIs? { return OK; }
    var s := reply.job;
    if s.failed > 0 { return Fail(JobFailed); }
    if s.succeeded == s.completions { return OK; }
    if s.active > 0 { return Return(Requeue(1), None); }
    if s.failedCondition { return Fail(JobFailed); }
    return Return(Requeue(1), None);
  }

  /** An object that is already gone counts as deleted. */
  function Deleted(a: Ans): Ran
  {
    Ran(a.s, if a.reply.Silence? then Killed
             else if a.reply.Fails? && !a.reply.error.NotFound? then Fail(a.reply.error) else OK)
  }

  function DeletePods(s: Sys, pods: seq<Pod>): Ran
    decreases |pods|
  {
    if pods == [] then Ran(s, OK)
    else
      var one := Deleted(Call(s, DeletePod(pods[0].name)));
      if one.flow != OK then one else DeletePods(one.s, pods[1..])
  }

  function RemoveJob(s: Sys, job: string): Ran
  {
    var gone := Deleted(Call(s, DeleteJob(job)));
    if gone.flow != OK then gone
    else
      var listed := Call(gone.s, ListJobPods(job));
      match listed.reply
      case PodsAre(pods) => DeletePods(listed.s, pods)
      case _ => Deleted(listed)
  }

  method DeleteJobAndPods(op: Operator, job: string) returns (flow: Flow)
    modifies op
    ensures Ran(op.Now(), flow) == RemoveJob(old(op.Now()), job)
  {
    var reply := op.Call(DeleteJob(job));
    if reply.Silence? { return Killed; }
    if reply.Fails? && !reply.error.NotFound? { return Fail(reply.error); }
    var listed := op.Call(ListJobPods(job));
    if listed.Silence? { return Killed; }
    if listed.Fails? && !listed.error.NotFound? { return Fail(listed.error); }
    if !listed.PodsAre? { return OK; }
    var pods := listed.pods;
    var i := 0;
    while i < |pods|
      invariant i <= |pods|
      invariant DeletePods(op.Now(), pods[i..]) == RemoveJob(old(op.Now()), job)
    {
      assert pods[i..][0] == pods[i] && pods[i..][1..] == pods[i + 1..];
      var gone := op.Call(DeletePod(pods[i].name));
      if gone.Silence? { return Killed; }
      if gone.Fails? && !gone.error.NotFound? { return Fail(gone.error); }
      i := i + 1;
    }
    return OK;
  }

  /** A job that exists already is as good as created. */
  function StartJob(s: Sys, job: string): Ran
  {
    var a := Call(s, CreateJob(job));
    Ran(a.s, if a.reply.Silence? then Killed
             else if a.reply.Fails? && !a.reply.error.AlreadyExists? then Fail(a.reply.error) else OK)
  }

  method RunJob(op: Operator, job: string) returns (flow: Flow)
    modifies op
    ensures Ran(op.Now(), flow) == StartJob(old(op.Now()), job)
  {
    var reply := op.Call(CreateJob(job));
    if reply.Silence? { return Killed; }
    if reply.Fails? && !reply.error.AlreadyExists? { return Fail(reply.error); }
    return OK;
  }
}
