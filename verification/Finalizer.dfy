/** The finalizer: nothing is taken down while volumes exist, and the finalizer goes last. */
module Finalizer {
  import opened Basics
  import opened Kube
  import opened OperatorState
  import opened StatusUpdater
  import opened Uninstall
  import opened Conditions

  const CSI_DRIVER := "nvmesh-csi.excelero.com"

  function RemoveString(list: seq<string>, s: string): seq<string>
  {
    if list == [] then []
    else
      var last := list[|list| - 1];
      RemoveString(list[..|list| - 1], s) + (if last == s then [] else [last])
  }

  method RemoveStringFrom(list: seq<string>, s: string) returns (kept: seq<string>)
    ensures kept == RemoveString(list, s)
  {
    kept := [];
    for i := 0 to |list|
      invariant kept == RemoveString(list[..i], s)
    {
      assert list[..i + 1] == list[..i] + [list[i]];
      if list[i] != s { kept := kept + [list[i]]; }
    }
    assert list[..|list|] == list;
  }

  predicate OurAttachment(a: Attachment)
  {
    a.attached && a.attacher == CSI_DRIVER
  }

  predicate OurVolume(v: Volume)
  {
    v.driver == Some(CSI_DRIVER)
  }

  /** The error a volume listing amounts to: a failed listing, or volumes of ours in it. */
  function VolumeError(reply: Reply): Option<Error>
  {
    match reply
    case Fails(e) => Some(e)
    case AttachmentsAre(list) => if exists i :: 0 <= i < |list| && OurAttachment(list[i]) then Some(VolumesInUse) else None
    case VolumesAre(list) => if exists i :: 0 <= i < |list| && OurVolume(list[i]) then Some(VolumesInUse) else None
    case _ => None
  }

  /** Every listed attachment is printed with its volume's name; one without a name is a nil dereference. */
  predicate Panics(reply: Reply)
  {
    reply.AttachmentsAre? && exists i :: 0 <= i < |reply.attachments| && reply.attachments[i].volume.None?
  }

  /** One listing, with its error ignored when the override is set. Both listings read the same override. */
  function VolumeCheck(s: Sys, q: Request): Ran
  {
    var listed := Call(s, q);
    var error := VolumeError(listed.reply);
    Ran(listed.s, if listed.reply.Silence? || Panics(listed.reply) then Killed
                  else if error.Some? && !s.cr.spec.ignoreVolumeAttachmentOnDelete then Fail(error.value) else OK)
  }

  function AllowedToDelete(s: Sys): Ran
  {
    var attachments := VolumeCheck(s, ListAttachments);
    if attachments.flow != OK then attachments else VolumeCheck(attachments.s, ListVolumes)
  }

  method VerifyNoVolumeAttachments(op: Operator) returns (killed: bool, error: Option<Error>)
    modifies op
    ensures var a := Call(old(op.Now()), ListAttachments);
      && op.Now() == a.s && killed == (a.reply.Silence? || Panics(a.reply)) && (!killed ==> error == VolumeError(a.reply))
      && (!killed && a.reply.AttachmentsAre? ==>
            (error.Some? <==> exists x :: x in a.reply.attachments && x.attached && x.attacher == "nvmesh-csi.excelero.com"))
  {
    var listed := op.Call(ListAttachments);
    if listed.Silence? { return true, None; }
    if listed.Fails? { return false, Some(listed.error); }
    if !listed.AttachmentsAre? { return false, VolumeError(listed); }
    var list := listed.attachments;
    var ours: seq<Attachment> := [];
    for i := 0 to |list|
      invariant |ours| > 0 <==> exists j :: 0 <= j < i && OurAttachment(list[j])
      invariant forall j :: 0 <= j < i ==> list[j].volume.Some?
    {
      if list[i].attached == true && list[i].attacher == CSI_DRIVER { ours := ours + [list[i]]; }
      if list[i].volume.None? { return true, None; }
    }
    return false, if |ours| > 0 then Some(VolumesInUse) else None;
  }

  method VerifyNoPersistentVolumes(op: Operator) returns (killed: bool, error: Option<Error>)
    modifies op
    ensures var a := Call(old(op.Now()), ListVolumes);
      && op.Now() == a.s && killed == a.reply.Silence? && (!killed ==> error == VolumeError(a.reply))
      && (a.reply.VolumesAre? ==>
            (error.Some? <==> exists x :: x in a.reply.volumes && x.driver == Some("nvmesh-csi.excelero.com")))
  {
    var listed := op.Call(ListVolumes);
    if listed.Silence? { return true, None; }
    if listed.Fails? { return false, Some(listed.error); }
    if !listed.VolumesAre? { return false, VolumeError(listed); }
    var list := listed.volumes;
    var ours: seq<string> := [];
    for i := 0 to |list|
      invariant |ours| > 0 <==> exists j :: 0 <= j < i && OurVolume(list[j])
    {
      if list[i].driver.Some? && list[i].driver.value == CSI_DRIVER { ours := ours + [list[i].name]; }
    }
    return false, if |ours| > 0 then Some(VolumesInUse) else None;
  }

  method IsAllowedToDeleteCluster(op: Operator) returns (flow: Flow)
    modifies op
    ensures Ran(op.Now(), flow) == AllowedToDelete(old(op.Now()))
  {
    var killed, error := VerifyNoVolumeAttachments(op);
    if killed { return Killed; }
    if error.Some? {
      if !op.cr.spec.ignoreVolumeAttachmentOnDelete { return Fail(error.value); }
    }
    killed, error := VerifyNoPersistentVolumes(op);
    if killed { return Killed; }
    if error.Some? {
      if !op.cr.spec.ignoreVolumeAttachmentOnDelete { return Fail(error.value); }
    }
    return OK;
  }

  // ---- writing the custom resource -------------------------------------------------------------

  /** Client.Update: on success the copy is what was stored, including the stored status. */
  function PushCr(s: Sys): Ran
  {
    var a := Call(s, UpdateCr(s.cr));
    match a.reply
    case Silence => Ran(a.s, Killed)
    case Fails(e) => Ran(a.s, Fail(e))
    case CrIs(cr) => Ran(a.s.(cr := cr), OK)
    case _ => Ran(a.s, OK)
  }

  method UpdateCustomResource(op: Operator) returns (flow: Flow)
    modifies op
    ensures Ran(op.Now(), flow) == PushCr(old(op.Now()))
  {
    var reply := op.Call(UpdateCr(op.cr));
    if reply.Silence? { return Killed; }
    if reply.Fails? { return Fail(reply.error); }
    if reply.CrIs? { op.cr := reply.cr; }
    return OK;
  }

  function WithFinalizers(s: Sys, finalizers: seq<string>): Sys
  {
    s.(cr := s.cr.(finalizers := finalizers))
  }

  function ReleaseFinalizer(s: Sys): Ran
  {
    PushCr(WithFinalizers(s, RemoveString(s.cr.finalizers, CLUSTER_FINALIZER)))
  }

  function TakeFinalizer(s: Sys): Ran
  {
    PushCr(WithFinalizers(s, s.cr.finalizers + [CLUSTER_FINALIZER]))
  }

  function Uninstalls(s: Sys): Sys
  {
    WithCondition(WithCondition(s, Ready(False, "")), Condition("Uninstalling", True, 0, "", ""))
  }

  /** A single status write whose failure is only logged. */
  function NoteProgress(s: Sys, result: Result): Ran
  {
    var a := Call(s, UpdateStatus(s.cr));
    match a.reply
    case Silence => Ran(a.s, Killed)
    case CrIs(cr) => Ran(a.s.(cr := cr), Return(result, None))
    case _ => Ran(a.s, Return(result, None))
  }

  function BeforeDeleting(s: Sys): Ran
  {
    var allowed := AllowedToDelete(s);
    if allowed.flow != OK then allowed
    else
      var r := TakeDown(allowed.s);
      if r.flow.Killed? || r.flow.err.Some? then r
      else if r.flow.result.requeue then NoteProgress(Uninstalls(r.s), r.flow.result)
      else ReleaseFinalizer(r.s)
  }

  function HandleFinalizer(s: Sys): Ran
  {
    if s.cr.deleting then
      if Ours(s.cr) then BeforeDeleting(s) else Ran(s, OK)
    else if !Ours(s.cr) then TakeFinalizer(s)
    else Ran(s, OK)
  }

  method DoBeforeDeletingNVMesh(op: Operator) returns (flow: Flow)
    modifies op
    ensures Ran(op.Now(), flow) == BeforeDeleting(old(op.Now()))
  {
    hide AllowedToDelete, TakeDown, Kube.Call;
    flow := IsAllowedToDeleteCluster(op);
    if flow != OK { return; }
    flow := UninstallCluster(op);
    if flow.Killed? || flow.err.Some? { return; }
    if flow.result.requeue {
      SetCondition(op, Ready(False, ""));
      SetCondition(op, Condition("Uninstalling", True, 0, "", ""));
      var reply := op.Call(UpdateStatus(op.cr));
      if reply.Silence? { return Killed; }
      if reply.CrIs? { op.cr := reply.cr; }
      return;
    }
    var finalizers := RemoveStringFrom(op.cr.finalizers, CLUSTER_FINALIZER);
    op.cr := op.cr.(finalizers := finalizers);
    flow := UpdateCustomResource(op);
  }

  method HandleClusterFinalizer(op: Operator) returns (flow: Flow)
    modifies op
    ensures Ran(op.Now(), flow) == HandleFinalizer(old(op.Now()))
  {
    if op.cr.deleting {
      if CLUSTER_FINALIZER in op.cr.finalizers {
        flow := DoBeforeDeletingNVMesh(op);
        return;
      }
      return OK;
    }
    if CLUSTER_FINALIZER !in op.cr.finalizers {
      op.cr := op.cr.(finalizers := op.cr.finalizers + [CLUSTER_FINALIZER]);
      flow := UpdateCustomResource(op);
      return;
    }
    return OK;
  }
}
