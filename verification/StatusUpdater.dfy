/** Writing the custom resource's status back, against concurrent writers. */
module StatusUpdater {
  import opened Basics
  import opened Kube
  import opened OperatorState
  import opened Conditions

  /** The steps of client-go's DefaultRetry. */
  const STATUS_ATTEMPTS: nat := 5

  function WithStatus(s: Sys, status: CrStatus): Sys
  {
    s.(cr := s.cr.(status := status))
  }

  /** One write of `status` over the cycle's copy, retried on conflict. */
  function WriteStatus(s: Sys, status: CrStatus, attempts: nat): Ran
    decreases attempts, 0
  {
    var ready := WithStatus(s, status);
    var a := Call(ready, UpdateStatus(ready.cr));
    match a.reply
    case Silence => Ran(a.s, Killed)
    case CrIs(cr) => Ran(a.s.(cr := cr), OK)
    case Fails(NotFound) => Ran(a.s, OK)
    case Fails(Conflict) => if attempts > 1 then RereadAndWrite(a.s, status, attempts - 1) else Ran(a.s, Fail(Conflict))
    case Fails(e) => Ran(a.s, Fail(e))
    case _ => Ran(a.s, OK)
  }

  function RereadAndWrite(s: Sys, status: CrStatus, attempts: nat): Ran
    decreases attempts, 1
  {
    var a := Call(s, GetCr);
    match a.reply
    case Silence => Ran(a.s, Killed)
    case CrIs(cr) => WriteStatus(a.s.(cr := cr), status, attempts)
    case Fails(NotFound) => Ran(a.s, OK)
    case Fails(e) => Ran(a.s, Fail(e))
    case _ => Ran(a.s, OK)
  }

  /** UpdateStatus: the status is the caller's at entry. */
  function PushStatus(s: Sys): Ran
  {
    WriteStatus(s, s.cr.status, STATUS_ATTEMPTS)
  }

  method UpdateCrStatus(op: Operator) returns (flow: Flow)
    modifies op
    ensures Ran(op.Now(), flow) == PushStatus(old(op.Now()))
  {
    var updatedStatus := op.cr.status;
    var attempts := STATUS_ATTEMPTS;
    var firstTime := true;
    while true
      invariant attempts >= 1
      invariant PushStatus(old(op.Now())) ==
        if firstTime then WriteStatus(op.Now(), updatedStatus, attempts)
        else RereadAndWrite(op.Now(), updatedStatus, attempts)
      decreases attempts
    {
      if !firstTime {
        var got := op.Call(GetCr);
        if got.Silence? { return Killed; }
        if got.Fails? { return if got.error.NotFound? then OK else Fail(got.error); }
        if !got.CrIs? { return OK; }
        op.cr := got.cr;
      }
      firstTime := false;
      op.cr := op.cr.(status := updatedStatus);
      var reply := op.Call(UpdateStatus(op.cr));
      if reply.Silence? { return Killed; }
      if reply.CrIs? {
        op.cr := reply.cr;
        return OK;
      }
      if !reply.Fails? || reply.error.NotFound? { return OK; }
      if !reply.error.Conflict? || attempts == 1 { return Fail(reply.error); }
      attempts := attempts - 1;
    }
  }

  function Ready(status: Status, reason: string): Condition
  {
    Condition("Ready", status, 0, reason, "")
  }

  function WithCondition(s: Sys, c: Condition): Sys
  {
    WithStatus(s, s.cr.status.(conditions := Set(s.cr.status.conditions, c, s.w.now)))
  }

  method SetCondition(op: Operator, c: Condition)
    modifies op`cr
    ensures op.Now() == WithCondition(old(op.Now()), c)
  {
    var list := new ConditionList(op.cr.status.conditions);
    list.SetStatusCondition(c, op.cluster.now);
    op.cr := op.cr.(status := op.cr.status.(conditions := list.items));
  }

  function ErrorText(e: Error): string
  {
    match e
    case VolumesInUse => "Cannot delete NVMesh cluster while volumes are in use"
    case UnknownAction => "Unknown Action"
    case Invalid => "Validation failed"
    case _ => "error"
  }

  /** The status could not be stored: try the whole cycle again in a second. */
  function Reported(pushed: Ran, result: Result): Ran
  {
    Ran(pushed.s, if pushed.flow.Killed? then Killed
                  else if pushed.flow.err.Some? then Return(Requeue(1), None)
                  else Return(result, None))
  }

  function Succeed(s: Sys, result: Result): Ran
  {
    Reported(PushStatus(WithCondition(s, Ready(True, ""))), result)
  }

  function Complain(s: Sys, issue: Error, result: Result): Ran
  {
    Reported(PushStatus(WithCondition(s, Ready(False, ErrorText(issue)))), result)
  }

  method ManageSuccess(op: Operator, result: Result) returns (flow: Flow)
    modifies op
    ensures Ran(op.Now(), flow) == Succeed(old(op.Now()), result)
  {
    SetCondition(op, Ready(True, ""));
    flow := UpdateCrStatus(op);
    if flow.Killed? { return Killed; }
    if flow.err.Some? { return Return(Requeue(1), None); }
    return Return(result, None);
  }

  method ManageError(op: Operator, issue: Error, result: Result) returns (flow: Flow)
    modifies op
    ensures Ran(op.Now(), flow) == Complain(old(op.Now()), issue, result)
  {
    SetCondition(op, Ready(False, ErrorText(issue)));
    flow := UpdateCrStatus(op);
    if flow.Killed? { return Killed; }
    if flow.err.Some? { return Return(Requeue(1), None); }
    return Return(result, None);
  }
}
